/** The handler blocks of src/caddy.js (`generateCaddyfile`, lines 314-495):
    a `handle` or `handle_path` block per handler holding its access lists,
    basic auth, plain header rules, and either a `reverse_proxy` block
    (upstreams, header rules, transport, load balancing, active and passive
    health checks) or a `redir`. Writers and emitters follow the pattern of
    the global block: `WriteX(out, ...)` is `out` followed by the text the
    source appends, and each `EmitX` method is proved to append exactly that. */
module NodeHandler {
  import opened Text
  import opened Duration
  import opened Records
  import opened Addresses
  import opened NodeAccess

  /** The path matcher after `handle`/`handle_path`: none without a path, the
      path followed by a wildcard segment for `handle_path` (whose prefix Caddy strips),
      the bare path otherwise. */
  function MatcherSuffix(h: Handler): (r: string)
    ensures h.handlePath == "" ==> r == ""
    ensures h.handlePath != "" && h.handleType == "handle_path" ==> r == " " + h.handlePath + "/*"
    ensures h.handlePath != "" && h.handleType != "handle_path" ==> r == " " + h.handlePath
  {
    if h.handlePath != "" then
      if h.handleType == "handle_path" then " " + h.handlePath + "/*" else " " + h.handlePath
    else ""
  }

  /** `handleDirective || 'reverse_proxy'`. */
  function Directive(h: Handler): (r: string)
    ensures r != ""
    ensures h.handleDirective != "" ==> r == h.handleDirective
    ensures h.handleDirective == "" ==> r == "reverse_proxy"
  {
    if h.handleDirective != "" then h.handleDirective else "reverse_proxy"
  }

  /** The `handle`/`handle_path` line opening the block. */
  function WriteHandleOpen(out: string, h: Handler): string
  {
    if h.handleType == "handle_path" then out + "\thandle_path" + MatcherSuffix(h) + " {\n"
    else out + "\thandle" + MatcherSuffix(h) + " {\n"
  }

  /** The plain `header` lines, written only when the directive is not
      `reverse_proxy` (a reverse proxy takes its header rules inside its own
      block); an empty value deletes the header. */
  function WriteHeaderLines(out: string, ids: seq<string>, headers: map<string, Header>, directive: string): string
    decreases |ids|
  {
    if ids == [] then out
    else
      var s := WriteHeaderLines(out, ids[..|ids| - 1], headers, directive);
      var id := ids[|ids| - 1];
      if id in headers && directive != "reverse_proxy" then
        var hd := headers[id];
        if hd.value == "" then s + "\t\theader -" + hd.name + "\n"
        else s + "\t\theader " + hd.name + " " + hd.value + "\n"
      else s
  }

  /** One header rule inside `reverse_proxy`: `header_down` (response
      headers) only when the direction is exactly `header_down`, `header_up`
      (request headers) otherwise; an empty value deletes the header. */
  function WriteProxyHeader(out: string, hd: Header): string
  {
    if hd.upDown == "header_down" then
      if hd.value == "" then out + "\t\t\theader_down -" + hd.name + "\n"
      else out + "\t\t\theader_down " + hd.name + " " + hd.value + "\n"
    else
      if hd.value == "" then out + "\t\t\theader_up -" + hd.name + "\n"
      else out + "\t\t\theader_up " + hd.name + " " + hd.value + "\n"
  }

  /** The header rules inside `reverse_proxy`, in order; unresolved ids are
      skipped. */
  function WriteProxyHeaders(out: string, ids: seq<string>, headers: map<string, Header>): string
    decreases |ids|
  {
    if ids == [] then out
    else
      var s := WriteProxyHeaders(out, ids[..|ids| - 1], headers);
      var id := ids[|ids| - 1];
      if id in headers then WriteProxyHeader(s, headers[id]) else s
  }

  /** The NTLM transport: always written for an NTLM handler, with `tls` (and
      optionally skipping verification) only when upstream TLS is on. */
  function WriteNtlmTransport(out: string, t: Transport): string
  {
    var s := out + "\t\t\ttransport http_ntlm {\n";
    var s := if t.httpTls then
               var s1 := s + "\t\t\t\ttls\n";
               if t.tlsInsecureSkipVerify then s1 + "\t\t\t\ttls_insecure_skip_verify\n" else s1
             else s;
    s + "\t\t\t}\n"
  }

  /** Whether an `http` transport block has anything to say. */
  predicate NeedsTransport(t: Transport)
  {
    t.httpTls || t.httpVersion != "" || t.keepalive != ""
  }

  /** The `transport http` block the source assembles in `transportBlock`:
      TLS options when upstream TLS is on, then HTTP versions and keepalive. */
  function HttpTransportBlock(t: Transport, certsDir: string): string
  {
    var b := "\t\t\ttransport http {\n";
    var b := if t.httpTls then
               var b1 := b + "\t\t\t\ttls\n";
               var b2 := if t.tlsInsecureSkipVerify then b1 + "\t\t\t\ttls_insecure_skip_verify\n" else b1;
               var b3 := if t.tlsServerName != "" then b2 + "\t\t\t\ttls_server_name " + t.tlsServerName + "\n" else b2;
               if t.tlsTrustedCaCerts != "" then
                 b3 + "\t\t\t\ttls_trusted_ca_certs " + JoinPath(certsDir, t.tlsTrustedCaCerts) + "\n"
               else b3
             else b;
    var b := if t.httpVersion != "" then b + "\t\t\t\tversions " + t.httpVersion + "\n" else b;
    var b := if t.keepalive != "" then b + "\t\t\t\tkeepalive " + t.keepalive + "\n" else b;
    b + "\t\t\t}\n"
  }

  /** The transport of a reverse proxy: NTLM, or the `http` block when it has
      something to say, or nothing. */
  function WriteTransport(out: string, t: Transport, certsDir: string): string
  {
    if t.ntlm then WriteNtlmTransport(out, t)
    else if NeedsTransport(t) then out + HttpTransportBlock(t, certsDir)
    else out
  }

  /** The load-balancing lines, each present when its setting is set; the
      durations normalised by `formatDuration`. */
  function WriteLoadBalancing(out: string, lb: LoadBalancing): string
  {
    var s := Opt(out, lb.policy != "", "\t\t\tlb_policy " + lb.policy + "\n");
    var s := Opt(s, lb.retries != 0, "\t\t\tlb_retries " + IntToString(lb.retries) + "\n");
    var s := Opt(s, lb.tryDuration != "", "\t\t\tlb_try_duration " + FormatDuration(lb.tryDuration) + "\n");
    Opt(s, lb.tryInterval != "", "\t\t\tlb_try_interval " + FormatDuration(lb.tryInterval) + "\n")
  }

  /** The active health-check probe: what to request, where and how
      often. */
  function WriteHealthProbe(out: string, a: ActiveHealth): string
  {
    var s := Opt(out, a.uri != "", "\t\t\thealth_uri " + a.uri + "\n");
    var s := Opt(s, a.port != "", "\t\t\thealth_port " + a.port + "\n");
    var s := Opt(s, a.interval != "", "\t\t\thealth_interval " + FormatDuration(a.interval) + "\n");
    Opt(s, a.timeout != "", "\t\t\thealth_timeout " + FormatDuration(a.timeout) + "\n")
  }

  /** The active health-check verdict: the expected answer, the thresholds
      and whether redirects are followed. */
  function WriteHealthExpect(out: string, a: ActiveHealth): string
  {
    var s := Opt(out, a.status != "", "\t\t\thealth_status " + a.status + "\n");
    var s := Opt(s, a.body != "", "\t\t\thealth_body \"" + a.body + "\"\n");
    var s := Opt(s, a.passes != 0, "\t\t\thealth_passes " + IntToString(a.passes) + "\n");
    var s := Opt(s, a.fails != 0, "\t\t\thealth_fails " + IntToString(a.fails) + "\n");
    Opt(s, a.followRedirects, "\t\t\thealth_follow_redirects\n")
  }

  /** The active health-check lines, each present when its setting is set. */
  function WriteActiveHealth(out: string, a: ActiveHealth): string
  {
    WriteHealthExpect(WriteHealthProbe(out, a), a)
  }

  /** The passive health-check lines, each present when its setting is set. */
  function WritePassiveHealth(out: string, p: PassiveHealth): string
  {
    var s := Opt(out, p.failDuration != "", "\t\t\tfail_duration " + FormatDuration(p.failDuration) + "\n");
    var s := Opt(s, p.maxFails != 0, "\t\t\tmax_fails " + IntToString(p.maxFails) + "\n");
    var s := Opt(s, p.unhealthyStatus != "", "\t\t\tunhealthy_status " + p.unhealthyStatus + "\n");
    var s := Opt(s, p.unhealthyLatency != "", "\t\t\tunhealthy_latency " + FormatDuration(p.unhealthyLatency) + "\n");
    Opt(s, p.unhealthyRequestCount != 0, "\t\t\tunhealthy_request_count " + IntToString(p.unhealthyRequestCount) + "\n")
  }

  /** The `reverse_proxy` block: upstreams, header rules, transport, load
      balancing, active and passive health checks, in that order. */
  function WriteReverseProxy(out: string, h: Handler, headers: map<string, Header>, certsDir: string): string
  {
    var s := WriteUpstreams(out + "\t\treverse_proxy", h.toDomain, h.toPort) + " {\n";
    var s := WriteProxyHeaders(s, h.header, headers);
    var s := WriteTransport(s, h.transport, certsDir);
    var s := WriteLoadBalancing(s, h.lb);
    var s := WriteActiveHealth(s, h.active);
    var s := WritePassiveHealth(s, h.passive);
    s + "\t\t}\n"
  }

  /** The redirect target: the first upstream, or empty when there is none. */
  function RedirTarget(h: Handler): (r: string)
    ensures |h.toDomain| > 0 ==> r == h.toDomain[0]
    ensures |h.toDomain| == 0 ==> r == ""
  {
    if |h.toDomain| > 0 then h.toDomain[0] else ""
  }

  /** The redirect status: `redir_status`, 301 by default. */
  function RedirStatus(h: Handler): (r: string)
    ensures r != ""
    ensures h.redirStatus != "" ==> r == h.redirStatus
    ensures h.redirStatus == "" ==> r == "301"
  {
    if h.redirStatus != "" then h.redirStatus else "301"
  }

  /** The directive part of a handler block: `reverse_proxy`, `redir`, or
      nothing for any other directive. */
  function WriteDirective(out: string, h: Handler, headers: map<string, Header>, certsDir: string): string
  {
    var directive := Directive(h);
    if directive == "reverse_proxy" then WriteReverseProxy(out, h, headers, certsDir)
    else if directive == "redir" then out + "\t\tredir " + RedirTarget(h) + " " + RedirStatus(h) + "\n"
    else out
  }

  /** A whole handler block. */
  function WriteHandler(out: string, h: Handler, lists: map<string, AccessList>, auths: map<string, BasicAuth>,
                        headers: map<string, Header>, certsDir: string): string
  {
    var s := WriteHandleOpen(out, h);
    var s := WriteAccessLists(s, h.accesslist, lists, "\t\t", "@al_h_");
    var s := WriteBasicAuths(s, h.basicauth, auths, "\t\t");
    var s := WriteHeaderLines(s, h.header, headers, Directive(h));
    WriteDirective(s, h, headers, certsDir) + "\t}\n"
  }

  // ----- Properties -----

  /** Plain `header` lines are never written beside a reverse proxy. */
  lemma {:induction false} NoHeaderLinesForProxy(out: string, ids: seq<string>, headers: map<string, Header>)
    ensures WriteHeaderLines(out, ids, headers, "reverse_proxy") == out
    decreases |ids|
  {
    if ids != [] {
      NoHeaderLinesForProxy(out, ids[..|ids| - 1], headers);
    }
  }

  /** A handler without a directive is a reverse proxy: it writes no plain
      `header` lines and the same block as one that names `reverse_proxy`. */
  lemma DefaultDirectiveIsProxy(out: string, h: Handler, lists: map<string, AccessList>,
                                auths: map<string, BasicAuth>, headers: map<string, Header>, certsDir: string)
    requires h.handleDirective == ""
    ensures WriteHandler(out, h, lists, auths, headers, certsDir)
         == WriteHandler(out, h.(handleDirective := "reverse_proxy"), lists, auths, headers, certsDir)
    ensures (var s := WriteBasicAuths(WriteAccessLists(WriteHandleOpen(out, h), h.accesslist, lists, "\t\t", "@al_h_"),
                                      h.basicauth, auths, "\t\t");
             WriteHandler(out, h, lists, auths, headers, certsDir)
             == WriteReverseProxy(s, h, headers, certsDir) + "\t}\n")
  {
    var s := WriteBasicAuths(WriteAccessLists(WriteHandleOpen(out, h), h.accesslist, lists, "\t\t", "@al_h_"),
                             h.basicauth, auths, "\t\t");
    NoHeaderLinesForProxy(s, h.header, headers);
    ProxyIgnoresDirective(s, h, headers, certsDir, "reverse_proxy");
  }

  /** The `reverse_proxy` block does not depend on how the directive was
      spelled. */
  lemma ProxyIgnoresDirective(out: string, h: Handler, headers: map<string, Header>, certsDir: string, d: string)
    ensures WriteReverseProxy(out, h, headers, certsDir) == WriteReverseProxy(out, h.(handleDirective := d), headers, certsDir)
  {
    var p := h.(handleDirective := d);
    assert p.toDomain == h.toDomain && p.toPort == h.toPort && p.header == h.header && p.transport == h.transport;
    assert p.lb == h.lb && p.active == h.active && p.passive == h.passive;
  }

  /** The direction of a proxy header rule: anything but exactly
      `header_down` (including no direction at all) is `header_up`. */
  lemma ProxyHeaderDirection(out: string, hd: Header)
    requires hd.upDown != "header_down"
    ensures WriteProxyHeader(out, hd) == WriteProxyHeader(out, hd.(upDown := "header_up"))
    ensures hd.value == "" ==> WriteProxyHeader(out, hd) == out + "\t\t\theader_up -" + hd.name + "\n"
  {
  }

  /** An empty header value deletes the header, in both directions. */
  lemma EmptyValueDeletes(out: string, hd: Header)
    requires hd.value == ""
    ensures hd.upDown == "header_down" ==> WriteProxyHeader(out, hd) == out + "\t\t\theader_down -" + hd.name + "\n"
    ensures hd.upDown != "header_down" ==> WriteProxyHeader(out, hd) == out + "\t\t\theader_up -" + hd.name + "\n"
  {
  }

  /** `transport http` is never written empty: it is written exactly when it
      has an option line, and then it holds more than its opening and closing
      lines. */
  lemma HttpTransportNeverEmpty(out: string, t: Transport, certsDir: string)
    requires !t.ntlm
    ensures !NeedsTransport(t) ==> WriteTransport(out, t, certsDir) == out
    ensures NeedsTransport(t) ==>
              WriteTransport(out, t, certsDir) == out + HttpTransportBlock(t, certsDir)
              && |HttpTransportBlock(t, certsDir)| > |"\t\t\ttransport http {\n" + "\t\t\t}\n"|
  {
  }

  /** The NTLM transport carries `tls` exactly when upstream TLS is on. */
  lemma NtlmTlsOnlyWithHttpTls(out: string, t: Transport, certsDir: string)
    requires t.ntlm
    ensures !t.httpTls ==> WriteTransport(out, t, certsDir) == out + "\t\t\ttransport http_ntlm {\n" + "\t\t\t}\n"
    ensures t.httpTls ==>
              StartsWith(WriteTransport(out, t, certsDir), out + "\t\t\ttransport http_ntlm {\n" + "\t\t\t\ttls\n")
  {
    if t.httpTls {
      var s1 := out + "\t\t\ttransport http_ntlm {\n" + "\t\t\t\ttls\n";
      var s2 := if t.tlsInsecureSkipVerify then s1 + "\t\t\t\ttls_insecure_skip_verify\n" else s1;
      var r := s2 + "\t\t\t}\n";
      assert r[..|s1|] == s1 by {
        assert r[..|s2|] == s2;
        assert s2[..|s1|] == s1;
      }
    }
  }

  /** A redirect goes to the first upstream with status `redir_status`, 301
      when none is set, and writes no `reverse_proxy`. */
  lemma RedirectLine(out: string, h: Handler, headers: map<string, Header>, certsDir: string)
    requires h.handleDirective == "redir"
    ensures WriteDirective(out, h, headers, certsDir)
         == out + "\t\tredir " + RedirTarget(h) + " " + RedirStatus(h) + "\n"
    ensures h.redirStatus == "" && |h.toDomain| > 0 ==>
              WriteDirective(out, h, headers, certsDir) == out + "\t\tredir " + h.toDomain[0] + " " + "301" + "\n"
  {
  }

  /** Each load-balancing line is written exactly when its setting is set,
      the durations normalised by `formatDuration`: setting one adds exactly
      its line and leaves the rest of the text as it was. */
  lemma LoadBalancingLines(out: string, lb: LoadBalancing)
    ensures lb.policy == "" && lb.retries == 0 && lb.tryDuration == "" && lb.tryInterval == ""
            ==> WriteLoadBalancing(out, lb) == out
    ensures lb.policy != "" ==>
              LineInserted(WriteLoadBalancing(out, lb), WriteLoadBalancing(out, lb.(policy := "")),
                           "\t\t\tlb_policy " + lb.policy + "\n")
    ensures lb.retries != 0 ==>
              LineInserted(WriteLoadBalancing(out, lb), WriteLoadBalancing(out, lb.(retries := 0)),
                           "\t\t\tlb_retries " + IntToString(lb.retries) + "\n")
    ensures lb.tryDuration != "" ==>
              LineInserted(WriteLoadBalancing(out, lb), WriteLoadBalancing(out, lb.(tryDuration := "")),
                           "\t\t\tlb_try_duration " + FormatDuration(lb.tryDuration) + "\n")
    ensures lb.tryInterval != "" ==>
              LineInserted(WriteLoadBalancing(out, lb), WriteLoadBalancing(out, lb.(tryInterval := "")),
                           "\t\t\tlb_try_interval " + FormatDuration(lb.tryInterval) + "\n")
  {
    Chain4Inserted(out,
      lb.policy != "", "\t\t\tlb_policy " + lb.policy + "\n", "\t\t\tlb_policy " + "" + "\n",
      lb.retries != 0, "\t\t\tlb_retries " + IntToString(lb.retries) + "\n", "\t\t\tlb_retries " + IntToString(0) + "\n",
      lb.tryDuration != "", "\t\t\tlb_try_duration " + FormatDuration(lb.tryDuration) + "\n", "\t\t\tlb_try_duration " + FormatDuration("") + "\n",
      lb.tryInterval != "", "\t\t\tlb_try_interval " + FormatDuration(lb.tryInterval) + "\n", "\t\t\tlb_try_interval " + FormatDuration("") + "\n");
  }

  /** Each probe line (`health_uri`, `health_port`, `health_interval`,
      `health_timeout`) is written exactly when its setting is set, the
      durations normalised by `formatDuration`. */
  lemma HealthProbeLines(out: string, a: ActiveHealth)
    ensures a.uri == "" && a.port == "" && a.interval == "" && a.timeout == ""
            ==> WriteHealthProbe(out, a) == out
    ensures a.uri != "" ==>
              LineInserted(WriteHealthProbe(out, a), WriteHealthProbe(out, a.(uri := "")),
                           "\t\t\thealth_uri " + a.uri + "\n")
    ensures a.port != "" ==>
              LineInserted(WriteHealthProbe(out, a), WriteHealthProbe(out, a.(port := "")),
                           "\t\t\thealth_port " + a.port + "\n")
    ensures a.interval != "" ==>
              LineInserted(WriteHealthProbe(out, a), WriteHealthProbe(out, a.(interval := "")),
                           "\t\t\thealth_interval " + FormatDuration(a.interval) + "\n")
    ensures a.timeout != "" ==>
              LineInserted(WriteHealthProbe(out, a), WriteHealthProbe(out, a.(timeout := "")),
                           "\t\t\thealth_timeout " + FormatDuration(a.timeout) + "\n")
  {
    Chain4Inserted(out,
      a.uri != "", "\t\t\thealth_uri " + a.uri + "\n", "\t\t\thealth_uri " + "" + "\n",
      a.port != "", "\t\t\thealth_port " + a.port + "\n", "\t\t\thealth_port " + "" + "\n",
      a.interval != "", "\t\t\thealth_interval " + FormatDuration(a.interval) + "\n", "\t\t\thealth_interval " + FormatDuration("") + "\n",
      a.timeout != "", "\t\t\thealth_timeout " + FormatDuration(a.timeout) + "\n", "\t\t\thealth_timeout " + FormatDuration("") + "\n");
  }

  /** Each verdict line other than the counters is written exactly when its
      setting is set; the expected body is quoted. */
  lemma HealthExpectLines(out: string, a: ActiveHealth)
    ensures a.status == "" && a.body == "" && a.passes == 0 && a.fails == 0 && !a.followRedirects
            ==> WriteHealthExpect(out, a) == out
    ensures a.status != "" ==>
              LineInserted(WriteHealthExpect(out, a), WriteHealthExpect(out, a.(status := "")),
                           "\t\t\thealth_status " + a.status + "\n")
    ensures a.body != "" ==>
              LineInserted(WriteHealthExpect(out, a), WriteHealthExpect(out, a.(body := "")),
                           "\t\t\thealth_body \"" + a.body + "\"\n")
    ensures a.followRedirects ==>
              LineInserted(WriteHealthExpect(out, a), WriteHealthExpect(out, a.(followRedirects := false)),
                           "\t\t\thealth_follow_redirects\n")
  {
    Chain5Inserted(out,
      a.status != "", "\t\t\thealth_status " + a.status + "\n", "\t\t\thealth_status " + "" + "\n",
      a.body != "", "\t\t\thealth_body \"" + a.body + "\"\n", "\t\t\thealth_body \"" + "" + "\"\n",
      a.passes != 0, "\t\t\thealth_passes " + IntToString(a.passes) + "\n", "\t\t\thealth_passes " + IntToString(0) + "\n",
      a.fails != 0, "\t\t\thealth_fails " + IntToString(a.fails) + "\n", "\t\t\thealth_fails " + IntToString(0) + "\n",
      a.followRedirects, "\t\t\thealth_follow_redirects\n", "\t\t\thealth_follow_redirects\n");
  }

  /** The `health_passes` and `health_fails` lines are written, in decimal,
      exactly when their counts are non-zero. */
  lemma HealthCountLines(out: string, a: ActiveHealth)
    ensures a.passes != 0 ==>
              LineInserted(WriteHealthExpect(out, a), WriteHealthExpect(out, a.(passes := 0)),
                           "\t\t\thealth_passes " + IntToString(a.passes) + "\n")
    ensures a.fails != 0 ==>
              LineInserted(WriteHealthExpect(out, a), WriteHealthExpect(out, a.(fails := 0)),
                           "\t\t\thealth_fails " + IntToString(a.fails) + "\n")
  {
    Chain5Inserted(out,
      a.status != "", "\t\t\thealth_status " + a.status + "\n", "\t\t\thealth_status " + "" + "\n",
      a.body != "", "\t\t\thealth_body \"" + a.body + "\"\n", "\t\t\thealth_body \"" + "" + "\"\n",
      a.passes != 0, "\t\t\thealth_passes " + IntToString(a.passes) + "\n", "\t\t\thealth_passes " + IntToString(0) + "\n",
      a.fails != 0, "\t\t\thealth_fails " + IntToString(a.fails) + "\n", "\t\t\thealth_fails " + IntToString(0) + "\n",
      a.followRedirects, "\t\t\thealth_follow_redirects\n", "\t\t\thealth_follow_redirects\n");
  }

  /** Each passive health-check line other than the counters is written
      exactly when its setting is set, the durations normalised by
      `formatDuration`. */
  lemma PassiveHealthLines(out: string, p: PassiveHealth)
    ensures p.failDuration == "" && p.maxFails == 0 && p.unhealthyStatus == "" && p.unhealthyLatency == "" && p.unhealthyRequestCount == 0
            ==> WritePassiveHealth(out, p) == out
    ensures p.failDuration != "" ==>
              LineInserted(WritePassiveHealth(out, p), WritePassiveHealth(out, p.(failDuration := "")),
                           "\t\t\tfail_duration " + FormatDuration(p.failDuration) + "\n")
    ensures p.unhealthyStatus != "" ==>
              LineInserted(WritePassiveHealth(out, p), WritePassiveHealth(out, p.(unhealthyStatus := "")),
                           "\t\t\tunhealthy_status " + p.unhealthyStatus + "\n")
    ensures p.unhealthyLatency != "" ==>
              LineInserted(WritePassiveHealth(out, p), WritePassiveHealth(out, p.(unhealthyLatency := "")),
                           "\t\t\tunhealthy_latency " + FormatDuration(p.unhealthyLatency) + "\n")
  {
    Chain5Inserted(out,
      p.failDuration != "", "\t\t\tfail_duration " + FormatDuration(p.failDuration) + "\n", "\t\t\tfail_duration " + FormatDuration("") + "\n",
      p.maxFails != 0, "\t\t\tmax_fails " + IntToString(p.maxFails) + "\n", "\t\t\tmax_fails " + IntToString(0) + "\n",
      p.unhealthyStatus != "", "\t\t\tunhealthy_status " + p.unhealthyStatus + "\n", "\t\t\tunhealthy_status " + "" + "\n",
      p.unhealthyLatency != "", "\t\t\tunhealthy_latency " + FormatDuration(p.unhealthyLatency) + "\n", "\t\t\tunhealthy_latency " + FormatDuration("") + "\n",
      p.unhealthyRequestCount != 0, "\t\t\tunhealthy_request_count " + IntToString(p.unhealthyRequestCount) + "\n", "\t\t\tunhealthy_request_count " + IntToString(0) + "\n");
  }

  /** The `max_fails` and `unhealthy_request_count` lines are written, in
      decimal, exactly when their counts are non-zero. */
  lemma PassiveCountLines(out: string, p: PassiveHealth)
    ensures p.maxFails != 0 ==>
              LineInserted(WritePassiveHealth(out, p), WritePassiveHealth(out, p.(maxFails := 0)),
                           "\t\t\tmax_fails " + IntToString(p.maxFails) + "\n")
    ensures p.unhealthyRequestCount != 0 ==>
              LineInserted(WritePassiveHealth(out, p), WritePassiveHealth(out, p.(unhealthyRequestCount := 0)),
                           "\t\t\tunhealthy_request_count " + IntToString(p.unhealthyRequestCount) + "\n")
  {
    Chain5Inserted(out,
      p.failDuration != "", "\t\t\tfail_duration " + FormatDuration(p.failDuration) + "\n", "\t\t\tfail_duration " + FormatDuration("") + "\n",
      p.maxFails != 0, "\t\t\tmax_fails " + IntToString(p.maxFails) + "\n", "\t\t\tmax_fails " + IntToString(0) + "\n",
      p.unhealthyStatus != "", "\t\t\tunhealthy_status " + p.unhealthyStatus + "\n", "\t\t\tunhealthy_status " + "" + "\n",
      p.unhealthyLatency != "", "\t\t\tunhealthy_latency " + FormatDuration(p.unhealthyLatency) + "\n", "\t\t\tunhealthy_latency " + FormatDuration("") + "\n",
      p.unhealthyRequestCount != 0, "\t\t\tunhealthy_request_count " + IntToString(p.unhealthyRequestCount) + "\n", "\t\t\tunhealthy_request_count " + IntToString(0) + "\n");
  }

  // ----- The imperative emitters -----

  /** The pre-proxy header loop (lines 374-389). */
  method EmitHeaderLines(acc: string, ids: seq<string>, headers: map<string, Header>, directive: string)
    returns (sb: string)
    ensures sb == WriteHeaderLines(acc, ids, headers, directive)
  {
    sb := acc;
    for i := 0 to |ids|
      invariant sb == WriteHeaderLines(acc, ids[..i], headers, directive)
    {
      assert ids[..i + 1][..i] == ids[..i];
      var hID := ids[i];
      if hID in headers {
        var hd := headers[hID];
        if directive != "reverse_proxy" {
          if hd.value == "" {
            sb := sb + "\t\theader -" + hd.name + "\n";
          } else {
            sb := sb + "\t\theader " + hd.name + " " + hd.value + "\n";
          }
        }
      }
    }
    assert ids[..|ids|] == ids;
  }

  /** The header loop inside `reverse_proxy` (lines 402-423). */
  method EmitProxyHeaders(acc: string, ids: seq<string>, headers: map<string, Header>) returns (sb: string)
    ensures sb == WriteProxyHeaders(acc, ids, headers)
  {
    sb := acc;
    for i := 0 to |ids|
      invariant sb == WriteProxyHeaders(acc, ids[..i], headers)
    {
      assert ids[..i + 1][..i] == ids[..i];
      var hID := ids[i];
      if hID in headers {
        var hd := headers[hID];
        if hd.upDown == "header_down" {
          if hd.value == "" {
            sb := sb + "\t\t\theader_down -" + hd.name + "\n";
          } else {
            sb := sb + "\t\t\theader_down " + hd.name + " " + hd.value + "\n";
          }
        } else {
          if hd.value == "" {
            sb := sb + "\t\t\theader_up -" + hd.name + "\n";
          } else {
            sb := sb + "\t\t\theader_up " + hd.name + " " + hd.value + "\n";
          }
        }
      }
    }
    assert ids[..|ids|] == ids;
  }

  /** The transport part (lines 426-462): the `http` block is assembled in a
      local buffer and appended only when some option set `needsTransport`. */
  method EmitTransport(acc: string, t: Transport, certsDir: string) returns (sb: string)
    ensures sb == WriteTransport(acc, t, certsDir)
  {
    sb := acc;
    if t.ntlm {
      sb := sb + "\t\t\ttransport http_ntlm {\n";
      if t.httpTls {
        sb := sb + "\t\t\t\ttls\n";
        if t.tlsInsecureSkipVerify {
          sb := sb + "\t\t\t\ttls_insecure_skip_verify\n";
        }
      }
      sb := sb + "\t\t\t}\n";
    } else {
      var needsTransport := false;
      var transportBlock := "\t\t\ttransport http {\n";
      if t.httpTls {
        needsTransport := true;
        transportBlock := transportBlock + "\t\t\t\ttls\n";
        if t.tlsInsecureSkipVerify {
          transportBlock := transportBlock + "\t\t\t\ttls_insecure_skip_verify\n";
        }
        if t.tlsServerName != "" {
          transportBlock := transportBlock + "\t\t\t\ttls_server_name " + t.tlsServerName + "\n";
        }
        if t.tlsTrustedCaCerts != "" {
          var caPath := JoinPath(certsDir, t.tlsTrustedCaCerts);
          transportBlock := transportBlock + "\t\t\t\ttls_trusted_ca_certs " + caPath + "\n";
        }
      }
      if t.httpVersion != "" {
        needsTransport := true;
        transportBlock := transportBlock + "\t\t\t\tversions " + t.httpVersion + "\n";
      }
      if t.keepalive != "" {
        needsTransport := true;
        transportBlock := transportBlock + "\t\t\t\tkeepalive " + t.keepalive + "\n";
      }
      transportBlock := transportBlock + "\t\t\t}\n";
      if needsTransport {
        sb := sb + transportBlock;
      }
    }
  }

  /** The load-balancing lines (lines 465-468). */
  method EmitLoadBalancing(acc: string, lb: LoadBalancing) returns (sb: string)
    ensures sb == WriteLoadBalancing(acc, lb)
  {
    sb := acc;
    if lb.policy != "" { sb := sb + ("\t\t\tlb_policy " + lb.policy + "\n"); }
    if lb.retries != 0 { sb := sb + ("\t\t\tlb_retries " + IntToString(lb.retries) + "\n"); }
    if lb.tryDuration != "" { sb := sb + ("\t\t\tlb_try_duration " + FormatDuration(lb.tryDuration) + "\n"); }
    if lb.tryInterval != "" { sb := sb + ("\t\t\tlb_try_interval " + FormatDuration(lb.tryInterval) + "\n"); }
  }

  /** The first four active health-check lines (lines 471-474). */
  method EmitHealthProbe(acc: string, a: ActiveHealth) returns (sb: string)
    ensures sb == WriteHealthProbe(acc, a)
  {
    sb := acc;
    if a.uri != "" { sb := sb + ("\t\t\thealth_uri " + a.uri + "\n"); }
    if a.port != "" { sb := sb + ("\t\t\thealth_port " + a.port + "\n"); }
    if a.interval != "" { sb := sb + ("\t\t\thealth_interval " + FormatDuration(a.interval) + "\n"); }
    if a.timeout != "" { sb := sb + ("\t\t\thealth_timeout " + FormatDuration(a.timeout) + "\n"); }
  }

  /** The remaining active health-check lines (lines 475-479). */
  method EmitHealthExpect(acc: string, a: ActiveHealth) returns (sb: string)
    ensures sb == WriteHealthExpect(acc, a)
  {
    sb := acc;
    if a.status != "" { sb := sb + ("\t\t\thealth_status " + a.status + "\n"); }
    if a.body != "" { sb := sb + ("\t\t\thealth_body \"" + a.body + "\"\n"); }
    if a.passes != 0 { sb := sb + ("\t\t\thealth_passes " + IntToString(a.passes) + "\n"); }
    if a.fails != 0 { sb := sb + ("\t\t\thealth_fails " + IntToString(a.fails) + "\n"); }
    if a.followRedirects { sb := sb + ("\t\t\thealth_follow_redirects\n"); }
  }

  /** The passive health-check lines (lines 482-486). */
  method EmitPassiveHealth(acc: string, p: PassiveHealth) returns (sb: string)
    ensures sb == WritePassiveHealth(acc, p)
  {
    sb := acc;
    if p.failDuration != "" { sb := sb + ("\t\t\tfail_duration " + FormatDuration(p.failDuration) + "\n"); }
    if p.maxFails != 0 { sb := sb + ("\t\t\tmax_fails " + IntToString(p.maxFails) + "\n"); }
    if p.unhealthyStatus != "" { sb := sb + ("\t\t\tunhealthy_status " + p.unhealthyStatus + "\n"); }
    if p.unhealthyLatency != "" { sb := sb + ("\t\t\tunhealthy_latency " + FormatDuration(p.unhealthyLatency) + "\n"); }
    if p.unhealthyRequestCount != 0 {
      sb := sb + ("\t\t\tunhealthy_request_count " + IntToString(p.unhealthyRequestCount) + "\n");
    }
  }

  /** The `reverse_proxy` block (lines 392-488). */
  method EmitReverseProxy(acc: string, h: Handler, headers: map<string, Header>, certsDir: string)
    returns (sb: string)
    ensures sb == WriteReverseProxy(acc, h, headers, certsDir)
  {
    sb := acc + "\t\treverse_proxy";
    sb := AppendUpstreams(sb, h.toDomain, h.toPort);
    sb := sb + " {\n";
    sb := EmitProxyHeaders(sb, h.header, headers);
    sb := EmitTransport(sb, h.transport, certsDir);
    sb := EmitLoadBalancing(sb, h.lb);
    sb := EmitHealthProbe(sb, h.active);
    sb := EmitHealthExpect(sb, h.active);
    sb := EmitPassiveHealth(sb, h.passive);
    sb := sb + "\t\t}\n";
  }

  /** The directive part of a handler block (lines 392-493). */
  method EmitDirective(acc: string, h: Handler, directive: string, headers: map<string, Header>, certsDir: string)
    returns (sb: string)
    requires directive == Directive(h)
    ensures sb == WriteDirective(acc, h, headers, certsDir)
  {
    sb := acc;
    if directive == "reverse_proxy" {
      sb := EmitReverseProxy(sb, h, headers, certsDir);
    } else if directive == "redir" {
      var to := if |h.toDomain| > 0 then h.toDomain[0] else "";
      var status := if h.redirStatus != "" then h.redirStatus else "301";
      sb := sb + "\t\tredir " + to + " " + status + "\n";
    }
  }

  /** The opening line of a handler block (lines 315-330). */
  method EmitHandleOpen(acc: string, h: Handler) returns (sb: string)
    ensures sb == WriteHandleOpen(acc, h)
  {
    var matcherStr := "";
    if h.handlePath != "" {
      if h.handleType == "handle_path" {
        matcherStr := " " + h.handlePath + "/*";
      } else {
        matcherStr := " " + h.handlePath;
      }
    }
    if h.handleType == "handle_path" {
      sb := acc + "\thandle_path" + matcherStr + " {\n";
    } else {
      sb := acc + "\thandle" + matcherStr + " {\n";
    }
  }

  /** One handler block (lines 314-495). */
  method EmitHandler(acc: string, h: Handler, lists: map<string, AccessList>, auths: map<string, BasicAuth>,
                     headers: map<string, Header>, certsDir: string) returns (sb: string)
    ensures sb == WriteHandler(acc, h, lists, auths, headers, certsDir)
  {
    var directive := if h.handleDirective != "" then h.handleDirective else "reverse_proxy";
    sb := EmitHandleOpen(acc, h);
    sb := EmitAccessLists(sb, h.accesslist, lists, "\t\t", "@al_h_");
    sb := EmitBasicAuths(sb, h.basicauth, auths, "\t\t");
    sb := EmitHeaderLines(sb, h.header, headers, directive);
    sb := EmitDirective(sb, h, directive, headers, certsDir);
    sb := sb + "\t}\n";
  }
}
