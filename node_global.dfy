/** The global options block of src/caddy.js (`generateCaddyfile`, lines
    13-116): listener ports, the rolling global log, `auto_https`, the ACME
    email, the `servers` tuning block and the `layer4` routes.

    Each part of the text is specified by a writer function `WriteX(out, ...)`:
    the output `out` followed by what that part of the generator appends. The
    methods append to an accumulator `sb` the way the source does and are
    proved to produce the writer's text; the gating, defaults and ordering the
    source promises are stated on the writers and in lemmas about them. */
module NodeGlobal {
  import opened Text
  import opened Duration
  import opened Records
  import opened Addresses

  /** `log_roll_size_mb || 10`. */
  function RollSize(g: General): (r: int)
    ensures r != 0
    ensures g.logRollSizeMb != 0 ==> r == g.logRollSizeMb
    ensures g.logRollSizeMb == 0 ==> r == 10
  {
    if g.logRollSizeMb != 0 then g.logRollSizeMb else 10
  }

  /** `log_roll_keep || 7`. */
  function RollKeep(g: General): (r: int)
    ensures r != 0
    ensures g.logRollKeep != 0 ==> r == g.logRollKeep
    ensures g.logRollKeep == 0 ==> r == 7
  {
    if g.logRollKeep != 0 then g.logRollKeep else 7
  }

  /** The `http_port` and `https_port` lines, each present exactly when its
      port is set. */
  function WritePorts(out: string, g: General): (r: string)
  {
    var s := Opt(out, g.httpPort != "", "\thttp_port " + g.httpPort + "\n");
    Opt(s, g.httpsPort != "", "\thttps_port " + g.httpsPort + "\n")
  }

  /** The global `log` block: a rolling file `caddy-global.log` in `logsDir`
      and the level; present exactly when a level is set. */
  function WriteGlobalLog(out: string, g: General, logsDir: string): (r: string)
  {
    if g.logLevel == "" then out
    else
      out + "\tlog {\n"
      + ("\t\toutput file " + logsDir + "/caddy-global.log {\n")
      + ("\t\t\troll_size " + IntToString(RollSize(g)) + "MiB\n")
      + ("\t\t\troll_keep " + IntToString(RollKeep(g)) + "\n")
      + "\t\t}\n"
      + ("\t\tlevel " + g.logLevel + "\n")
      + "\t}\n"
  }

  /** The `auto_https` and `email` lines, each present exactly when set. */
  function WriteAcme(out: string, g: General): (r: string)
  {
    var s := Opt(out, g.autoHttps != "", "\tauto_https " + g.autoHttps + "\n");
    Opt(s, g.tlsEmail != "", "\temail " + g.tlsEmail + "\n")
  }

  predicate AnyTimeout(g: General)
  {
    g.timeoutReadBody != "" || g.timeoutReadHeader != "" || g.timeoutWrite != "" || g.timeoutIdle != ""
  }

  predicate AnyServerOption(g: General)
  {
    g.httpVersions != "" || AnyTimeout(g) || g.logCredentials
  }

  /** The lines inside the `timeouts` block: each timeout has its own line,
      present when it is set, with the value normalised by
      `formatDuration`. */
  function TimeoutLines(out: string, g: General): (r: string)
  {
    var s := Opt(out, g.timeoutReadBody != "", "\t\t\tread_body " + FormatDuration(g.timeoutReadBody) + "\n");
    var s := Opt(s, g.timeoutReadHeader != "", "\t\t\tread_header " + FormatDuration(g.timeoutReadHeader) + "\n");
    var s := Opt(s, g.timeoutWrite != "", "\t\t\twrite " + FormatDuration(g.timeoutWrite) + "\n");
    Opt(s, g.timeoutIdle != "", "\t\t\tidle " + FormatDuration(g.timeoutIdle) + "\n")
  }

  /** The nested `timeouts` block: present exactly when some timeout is
      set. */
  function WriteTimeouts(out: string, g: General): (r: string)
  {
    if !AnyTimeout(g) then out
    else TimeoutLines(out + "\t\ttimeouts {\n", g) + "\t\t}\n"
  }

  /** The `servers` block: present exactly when protocols, credential
      logging or a timeout is set. */
  function WriteServers(out: string, g: General): (r: string)
  {
    if !AnyServerOption(g) then out
    else
      var s := Opt(out + "\tservers {\n", g.httpVersions != "", "\t\tprotocols " + g.httpVersions + "\n");
      var s := Opt(s, g.logCredentials, "\t\tlog_credentials\n");
      WriteTimeouts(s, g) + "\t}\n"
  }

  /** The listener port of a route: `fromPort`, or 443 when it is empty. */
  function ListenPort(l4: Layer4Route): (p: string)
    ensures p != ""
    ensures l4.fromPort != "" ==> p == l4.fromPort
    ensures l4.fromPort == "" ==> p == "443"
  {
    if l4.fromPort != "" then l4.fromPort else "443"
  }

  /** The `match` block of a route: the matcher and the route's domains;
      omitted exactly when there is no matcher or it is `any`. */
  function WriteMatch(out: string, l4: Layer4Route): (r: string)
  {
    if l4.matchers != "" && l4.matchers != "any" then
      var s := out + "\t\t\tmatch {\n" + ("\t\t\t\t" + l4.matchers);
      var s := Opt(s, |l4.fromDomain| > 0, " " + Join(l4.fromDomain, " "));
      s + "\n\t\t\t}\n"
    else out
  }

  /** `proxy_protocol` is emitted only for the versions `v1` and `v2`. */
  function WriteProxyProtocol(out: string, l4: Layer4Route): (r: string)
  {
    if l4.proxyProtocol == "v1" || l4.proxyProtocol == "v2" then
      out + ("\t\t\t\tproxy_protocol " + l4.proxyProtocol + "\n")
    else out
  }

  /** What `WriteProxy` writes between the opening line and the closing
      brace. */
  function ProxyBody(s: string, l4: Layer4Route): string
  {
    var s := WriteProxyProtocol(s, l4);
    var s := Opt(s, l4.lbPolicy != "", "\t\t\t\tlb_policy " + l4.lbPolicy + "\n");
    var s := Opt(s, l4.passiveHealthFailDuration != "",
                 "\t\t\t\tpassive_health_fail_duration " + FormatDuration(l4.passiveHealthFailDuration) + "\n");
    Opt(s, l4.passiveHealthMaxFails != 0,
        "\t\t\t\tpassive_health_max_fails " + IntToString(l4.passiveHealthMaxFails) + "\n")
  }

  /** The `proxy` block of a route: present exactly when the route has
      upstreams. */
  function WriteProxy(out: string, l4: Layer4Route): (r: string)
  {
    if |l4.toDomain| > 0 then
      ProxyBody(WriteUpstreams(out + "\t\t\tproxy", l4.toDomain, l4.toPort) + " {\n", l4) + "\t\t\t}\n"
    else out
  }

  /** The TLS lines of a route: `tls` to terminate, `tls_client` (optionally
      without verification) to originate. */
  function WriteRouteTls(out: string, l4: Layer4Route): (r: string)
  {
    var s := if l4.terminateTls then out + "\t\t\ttls\n" else out;
    if l4.originateTls == "tls" then s + "\t\t\ttls_client\n"
    else if l4.originateTls == "tls_insecure_skip_verify" then
      s + "\t\t\ttls_client {\n\t\t\t\tinsecure_skip_verify\n\t\t\t}\n"
    else s
  }

  /** The listener block of one route: nothing for a disabled route, else a
      block on `:port` holding the match, proxy and TLS parts. */
  function WriteRoute(out: string, l4: Layer4Route): (r: string)
  {
    if !l4.enabled then out
    else
      var s := out + ("\t\t:" + ListenPort(l4) + " {\n");
      WriteRouteTls(WriteProxy(WriteMatch(s, l4), l4), l4) + "\t\t}\n"
  }

  /** The route blocks, in input order. */
  function WriteRoutes(out: string, rs: seq<Layer4Route>): (r: string)
    decreases |rs|
  {
    if rs == [] then out else WriteRoute(WriteRoutes(out, rs[..|rs| - 1]), rs[|rs| - 1])
  }

  /** The `layer4` block: present exactly when Layer4 is enabled and the
      route list is not empty (even when every route in it is disabled). */
  function WriteLayer4(out: string, g: General, rs: seq<Layer4Route>): (r: string)
  {
    if g.enableLayer4 && |rs| > 0 then WriteRoutes(out + "\tlayer4 {\n", rs) + "\t}\n" else out
  }

  /** The whole options block, from `{` to the closing `}` and a blank line. */
  function GlobalOptions(g: General, rs: seq<Layer4Route>, logsDir: string): (r: string)
    ensures EndsWith(r, "}\n\n")
  {
    var s := WritePorts("{\n", g);
    var s := WriteGlobalLog(s, g, logsDir);
    var s := WriteAcme(s, g);
    var s := WriteServers(s, g);
    var s := WriteLayer4(s, g, rs);
    var r := s + "}\n\n";
    assert r[|r| - 3..] == "}\n\n";
    r
  }

  /** The enabled routes, in input order. */
  function EnabledRoutes(rs: seq<Layer4Route>): (e: seq<Layer4Route>)
    ensures |e| <= |rs|
    ensures forall l4 :: l4 in e ==> l4 in rs && l4.enabled
    decreases |rs|
  {
    if rs == [] then []
    else
      var l4 := rs[|rs| - 1];
      EnabledRoutes(rs[..|rs| - 1]) + (if l4.enabled then [l4] else [])
  }

  /** Disabled routes leave no trace: the route text is that of the enabled
      routes alone. */
  lemma {:induction false} DisabledRoutesSkipped(out: string, rs: seq<Layer4Route>)
    ensures WriteRoutes(out, rs) == WriteRoutes(out, EnabledRoutes(rs))
    decreases |rs|
  {
    if rs != [] {
      var init, l4 := rs[..|rs| - 1], rs[|rs| - 1];
      DisabledRoutesSkipped(out, init);
      var e := EnabledRoutes(init);
      if l4.enabled {
        assert EnabledRoutes(rs) == e + [l4];
        assert (e + [l4])[..|e|] == e;
      } else {
        assert EnabledRoutes(rs) == e;
      }
    }
  }

  // ----- Gating and content: each part is written exactly when its settings call for it -----

  /** The port lines: nothing when no port is set, `http_port` first, and
      each port that is set adds exactly its line. Like every part of the
      block, the lines do not depend on the text written before them. */
  lemma PortsGate(out: string, g: General)
    ensures WritePorts(out, g) == out + WritePorts("", g)
    ensures g.httpPort == "" && g.httpsPort == "" ==> WritePorts(out, g) == out
    ensures g.httpPort != "" ==> StartsWith(WritePorts(out, g), out + "\thttp_port " + g.httpPort + "\n")
    ensures g.httpPort != "" ==>
              LineInserted(WritePorts(out, g), WritePorts(out, g.(httpPort := "")), "\thttp_port " + g.httpPort + "\n")
    ensures g.httpsPort != "" ==>
              LineInserted(WritePorts(out, g), WritePorts(out, g.(httpsPort := "")), "\thttps_port " + g.httpsPort + "\n")
  {
    var l1, l2 := "\thttp_port " + g.httpPort + "\n", "\thttps_port " + g.httpsPort + "\n";
    Chain2Inserted(out, g.httpPort != "", l1, "\thttp_port " + "" + "\n", g.httpsPort != "", l2, "\thttps_port " + "" + "\n");
    OptAfter(out, "", g.httpPort != "", l1);
    assert out + "" == out;
    OptAfter(out, Opt("", g.httpPort != "", l1), g.httpsPort != "", l2);
    if g.httpPort != "" {
      StartsWithAppend(out + l1, out + l1, Opt("", g.httpsPort != "", l2));
      OptAfter(out + l1, "", g.httpsPort != "", l2);
      assert out + l1 + "" == out + l1;
    }
  }

  /** The `auto_https` and `email` lines: each present exactly when set,
      and setting one adds exactly its line. */
  lemma AcmeGate(out: string, g: General)
    ensures WriteAcme(out, g) == out + WriteAcme("", g)
    ensures g.autoHttps == "" && g.tlsEmail == "" ==> WriteAcme(out, g) == out
    ensures g.autoHttps != "" ==>
              LineInserted(WriteAcme(out, g), WriteAcme(out, g.(autoHttps := "")), "\tauto_https " + g.autoHttps + "\n")
    ensures g.tlsEmail != "" ==>
              LineInserted(WriteAcme(out, g), WriteAcme(out, g.(tlsEmail := "")), "\temail " + g.tlsEmail + "\n")
  {
    var l1, l2 := "\tauto_https " + g.autoHttps + "\n", "\temail " + g.tlsEmail + "\n";
    Chain2Inserted(out, g.autoHttps != "", l1, "\tauto_https " + "" + "\n", g.tlsEmail != "", l2, "\temail " + "" + "\n");
    OptAfter(out, "", g.autoHttps != "", l1);
    assert out + "" == out;
    OptAfter(out, Opt("", g.autoHttps != "", l1), g.tlsEmail != "", l2);
  }

  /** The global log block: nothing without a level, and it does not
      depend on the text written before it. */
  lemma GlobalLogAfter(out: string, g: General, logsDir: string)
    ensures WriteGlobalLog(out, g, logsDir) == out + WriteGlobalLog("", g, logsDir)
    ensures g.logLevel == "" ==> WriteGlobalLog(out, g, logsDir) == out
  {
    if g.logLevel != "" {
      var p1, p2 := "\tlog {\n", "\t\toutput file " + logsDir + "/caddy-global.log {\n";
      var p3 := "\t\t\troll_size " + IntToString(RollSize(g)) + "MiB\n";
      var p4 := "\t\t\troll_keep " + IntToString(RollKeep(g)) + "\n";
      var p5, p6, p7 := "\t\t}\n", "\t\tlevel " + g.logLevel + "\n", "\t}\n";
      assert "" + p1 == p1;
      AppendAssoc(out, p1, p2);
      AppendAssoc(out, p1 + p2, p3);
      AppendAssoc(out, p1 + p2 + p3, p4);
      AppendAssoc(out, p1 + p2 + p3 + p4, p5);
      AppendAssoc(out, p1 + p2 + p3 + p4 + p5, p6);
      AppendAssoc(out, p1 + p2 + p3 + p4 + p5 + p6, p7);
    } else {
      assert out + "" == out;
    }
  }

  /** With a level, the global log block opens on the rolling file
      `caddy-global.log` in `logsDir` and closes on the level. */
  lemma GlobalLogFrame(out: string, g: General, logsDir: string)
    requires g.logLevel != ""
    ensures StartsWith(WriteGlobalLog(out, g, logsDir), out + "\tlog {\n" + ("\t\toutput file " + logsDir + "/caddy-global.log {\n"))
    ensures EndsWith(WriteGlobalLog(out, g, logsDir), ("\t\tlevel " + g.logLevel + "\n") + "\t}\n")
  {
    var head := out + "\tlog {\n" + ("\t\toutput file " + logsDir + "/caddy-global.log {\n");
    var p3 := "\t\t\troll_size " + IntToString(RollSize(g)) + "MiB\n";
    var p4 := "\t\t\troll_keep " + IntToString(RollKeep(g)) + "\n";
    var p5, p6, p7 := "\t\t}\n", "\t\tlevel " + g.logLevel + "\n", "\t}\n";
    StartsWithAppend(head, head, p3);
    StartsWithAppend(head + p3, head, p4);
    StartsWithAppend(head + p3 + p4, head, p5);
    StartsWithAppend(head + p3 + p4 + p5, head, p6);
    StartsWithAppend(head + p3 + p4 + p5 + p6, head, p7);
    EndsWithPieces(head + p3 + p4 + p5, p6, p7);
  }

  /** With a level set and no roll settings, the log rolls at 10 MiB and
      keeps 7 files. */
  lemma GlobalLogDefaults(out: string, g: General, logsDir: string)
    requires g.logLevel != "" && g.logRollSizeMb == 0 && g.logRollKeep == 0
    ensures WriteGlobalLog(out, g, logsDir)
         == out + "\tlog {\n" + ("\t\toutput file " + logsDir + "/caddy-global.log {\n")
            + "\t\t\troll_size 10MiB\n" + "\t\t\troll_keep 7\n" + "\t\t}\n"
            + ("\t\tlevel " + g.logLevel + "\n") + "\t}\n"
  {
    assert IntToString(10) == "10" by { assert NatToString(10) == NatToString(1) + [DigitChar(0)]; }
    assert IntToString(7) == "7";
    assert "\t\t\troll_size " + "10" + "MiB\n" == "\t\t\troll_size 10MiB\n";
    assert "\t\t\troll_keep " + "7" + "\n" == "\t\t\troll_keep 7\n";
  }

  /** Inside the `timeouts` block, each timeout line is written exactly when
      its timeout is set, the value normalised by `formatDuration`: setting
      one adds exactly its line. */
  lemma TimeoutLinesInserted(out: string, g: General)
    ensures !AnyTimeout(g) ==> TimeoutLines(out, g) == out
    ensures g.timeoutReadBody != "" ==>
              LineInserted(TimeoutLines(out, g), TimeoutLines(out, g.(timeoutReadBody := "")),
                           "\t\t\tread_body " + FormatDuration(g.timeoutReadBody) + "\n")
    ensures g.timeoutReadHeader != "" ==>
              LineInserted(TimeoutLines(out, g), TimeoutLines(out, g.(timeoutReadHeader := "")),
                           "\t\t\tread_header " + FormatDuration(g.timeoutReadHeader) + "\n")
    ensures g.timeoutWrite != "" ==>
              LineInserted(TimeoutLines(out, g), TimeoutLines(out, g.(timeoutWrite := "")),
                           "\t\t\twrite " + FormatDuration(g.timeoutWrite) + "\n")
    ensures g.timeoutIdle != "" ==>
              LineInserted(TimeoutLines(out, g), TimeoutLines(out, g.(timeoutIdle := "")),
                           "\t\t\tidle " + FormatDuration(g.timeoutIdle) + "\n")
  {
    Chain4Inserted(out,
      g.timeoutReadBody != "", "\t\t\tread_body " + FormatDuration(g.timeoutReadBody) + "\n", "\t\t\tread_body " + FormatDuration("") + "\n",
      g.timeoutReadHeader != "", "\t\t\tread_header " + FormatDuration(g.timeoutReadHeader) + "\n", "\t\t\tread_header " + FormatDuration("") + "\n",
      g.timeoutWrite != "", "\t\t\twrite " + FormatDuration(g.timeoutWrite) + "\n", "\t\t\twrite " + FormatDuration("") + "\n",
      g.timeoutIdle != "", "\t\t\tidle " + FormatDuration(g.timeoutIdle) + "\n", "\t\t\tidle " + FormatDuration("") + "\n");
  }

  /** The timeout lines do not depend on the text before them. */
  lemma TimeoutLinesAfter(x: string, y: string, g: General)
    ensures TimeoutLines(x + y, g) == x + TimeoutLines(y, g)
  {
    var l1 := "\t\t\tread_body " + FormatDuration(g.timeoutReadBody) + "\n";
    var l2 := "\t\t\tread_header " + FormatDuration(g.timeoutReadHeader) + "\n";
    var l3 := "\t\t\twrite " + FormatDuration(g.timeoutWrite) + "\n";
    var l4 := "\t\t\tidle " + FormatDuration(g.timeoutIdle) + "\n";
    OptAfter(x, y, g.timeoutReadBody != "", l1);
    var s1 := Opt(y, g.timeoutReadBody != "", l1);
    OptAfter(x, s1, g.timeoutReadHeader != "", l2);
    var s2 := Opt(s1, g.timeoutReadHeader != "", l2);
    OptAfter(x, s2, g.timeoutWrite != "", l3);
    var s3 := Opt(s2, g.timeoutWrite != "", l3);
    OptAfter(x, s3, g.timeoutIdle != "", l4);
  }

  /** The `timeouts` block: nothing when no timeout is set, and it does not
      depend on the text before it. */
  lemma TimeoutsAfter(out: string, g: General)
    ensures WriteTimeouts(out, g) == out + WriteTimeouts("", g)
    ensures !AnyTimeout(g) ==> WriteTimeouts(out, g) == out
  {
    if AnyTimeout(g) {
      var open, close := "\t\ttimeouts {\n", "\t\t}\n";
      assert "" + open == open;
      TimeoutLinesAfter(out, open, g);
      AppendAssoc(out, TimeoutLines(open, g), close);
    } else {
      assert out + "" == out;
    }
  }

  /** With a timeout set, the `timeouts` block is opened by `timeouts {`
      and closed by its brace. */
  lemma TimeoutsFrame(out: string, g: General)
    requires AnyTimeout(g)
    ensures StartsWith(WriteTimeouts(out, g), out + "\t\ttimeouts {\n") && EndsWith(WriteTimeouts(out, g), "\t\t}\n")
  {
    var open := out + "\t\ttimeouts {\n";
    assert open + "" == open;
    TimeoutLinesAfter(open, "", g);
    StartsWithAppend(open, open, TimeoutLines("", g));
    StartsWithAppend(open + TimeoutLines("", g), open, "\t\t}\n");
  }

  /** The `servers` block is its opening lines, then the `timeouts` block,
      then its closing brace. */
  lemma ServersHead(out: string, g: General)
    requires AnyServerOption(g)
    ensures WriteServers(out, g)
         == WriteTimeouts(out + Opt(Opt("\tservers {\n", g.httpVersions != "", "\t\tprotocols " + g.httpVersions + "\n"),
                                    g.logCredentials, "\t\tlog_credentials\n"), g) + "\t}\n"
  {
    Opt2After(out, "\tservers {\n", g.httpVersions != "", "\t\tprotocols " + g.httpVersions + "\n",
              g.logCredentials, "\t\tlog_credentials\n");
  }

  /** Text followed by a `timeouts` block and a brace does not depend on the
      text before it. */
  lemma TimeoutsCloseAfter(out: string, a: string, g: General)
    ensures WriteTimeouts(out + a, g) + "\t}\n" == out + (WriteTimeouts(a, g) + "\t}\n")
  {
    var t := WriteTimeouts("", g);
    TimeoutsAfter(out + a, g);
    TimeoutsAfter(a, g);
    AppendAssoc(out, a, t);
    AppendAssoc(out, a + t, "\t}\n");
  }

  /** The `servers` block: nothing unless protocols, credential logging or
      a timeout is set, and it does not depend on the text before it. */
  lemma ServersAfter(out: string, g: General)
    ensures WriteServers(out, g) == out + WriteServers("", g)
    ensures !AnyServerOption(g) ==> WriteServers(out, g) == out
  {
    if AnyServerOption(g) {
      ServersBlockAfter(out, g);
    } else {
      assert out + "" == out;
    }
  }

  lemma ServersBlockAfter(out: string, g: General)
    requires AnyServerOption(g)
    ensures WriteServers(out, g) == out + WriteServers("", g)
  {
    var a := Opt(Opt("\tservers {\n", g.httpVersions != "", "\t\tprotocols " + g.httpVersions + "\n"),
                 g.logCredentials, "\t\tlog_credentials\n");
    ServersHead(out, g);
    ServersHead("", g);
    assert "" + a == a;
    TimeoutsCloseAfter(out, a, g);
  }

  /** The `servers` block in pieces: its opening line, the optional
      protocols and `log_credentials` lines, the `timeouts` block, the
      closing brace. */
  lemma ServersParts(out: string, g: General)
    requires AnyServerOption(g)
    ensures WriteServers(out, g)
         == out + "\tservers {\n"
            + Opt(Opt("", g.httpVersions != "", "\t\tprotocols " + g.httpVersions + "\n"), g.logCredentials, "\t\tlog_credentials\n")
            + WriteTimeouts("", g) + "\t}\n"
  {
    var open := "\tservers {\n";
    var proto, cred := "\t\tprotocols " + g.httpVersions + "\n", "\t\tlog_credentials\n";
    var o := Opt(Opt("", g.httpVersions != "", proto), g.logCredentials, cred);
    ServersHead(out, g);
    assert open + "" == open;
    Opt2After(open, "", g.httpVersions != "", proto, g.logCredentials, cred);
    AppendAssoc(out, open, o);
    TimeoutsAfter(out + open + o, g);
  }

  /** A `servers` block opens with `servers {` and closes with its brace,
      after the `timeouts` block when a timeout is set. */
  lemma ServersFrame(out: string, g: General)
    requires AnyServerOption(g)
    ensures StartsWith(WriteServers(out, g), out + "\tservers {\n") && EndsWith(WriteServers(out, g), "\t}\n")
    ensures AnyTimeout(g) ==> EndsWith(WriteServers(out, g), "\t\t}\n" + "\t}\n")
  {
    var proto, cred := "\t\tprotocols " + g.httpVersions + "\n", "\t\tlog_credentials\n";
    var o := Opt(Opt("", g.httpVersions != "", proto), g.logCredentials, cred);
    var t := WriteTimeouts("", g);
    ServersParts(out, g);
    StartsWithPieces(out + "\tservers {\n", o, t, "\t}\n");
    if AnyTimeout(g) {
      TimeoutsFrame("", g);
      EndsWithOfPieces(out + "\tservers {\n" + o, t, "\t\t}\n", "\t}\n");
    }
  }

  /** With protocols set, the protocols line comes first in the `servers`
      block. */
  lemma ServersProtocolsFirst(out: string, g: General)
    requires g.httpVersions != ""
    ensures StartsWith(WriteServers(out, g), out + "\tservers {\n" + ("\t\tprotocols " + g.httpVersions + "\n"))
  {
    var open := "\tservers {\n";
    var proto, cred := "\t\tprotocols " + g.httpVersions + "\n", "\t\tlog_credentials\n";
    var c := Opt("", g.logCredentials, cred);
    ServersParts(out, g);
    OptFirstWritten(proto, g.logCredentials, cred);
    AppendAssoc(out + open, proto, c);
    StartsWithPieces(out + open + proto, c, WriteTimeouts("", g), "\t}\n");
  }

  /** When the `servers` block is written for another reason, turning on
      credential logging adds exactly the `log_credentials` line. */
  lemma ServersCredentials(out: string, g: General)
    requires g.logCredentials && (g.httpVersions != "" || AnyTimeout(g))
    ensures LineInserted(WriteServers(out, g), WriteServers(out, g.(logCredentials := false)), "\t\tlog_credentials\n")
  {
    var open, close := "\tservers {\n", "\t}\n";
    var proto, cred := "\t\tprotocols " + g.httpVersions + "\n", "\t\tlog_credentials\n";
    var a1 := Opt(out + open, g.httpVersions != "", proto);
    var g' := g.(logCredentials := false);
    var t := WriteTimeouts("", g);
    assert WriteTimeouts("", g') == t;
    TimeoutsAfter(a1 + cred, g);
    TimeoutsAfter(a1, g');
    AppendAssoc(a1 + cred, t, close);
    AppendAssoc(a1, t, close);
    InsertedBetween(a1, cred, t + close);
  }

  /** A timeout given as a bare number of seconds is written with the unit:
      with only `timeout_idle` set to `30`, the block reads
      `timeouts { idle 30s }`. */
  lemma TimeoutsBareCount(out: string, g: General)
    requires g.timeoutReadBody == "" && g.timeoutReadHeader == "" && g.timeoutWrite == ""
    requires g.timeoutIdle == "30"
    ensures WriteTimeouts(out, g) == out + "\t\ttimeouts {\n" + "\t\t\tidle " + "30s" + "\n" + "\t\t}\n"
  {
    FormatDurationBareCount();
  }

  /** `proxy_protocol` is written only for `v1` and `v2`. */
  lemma ProxyProtocolGate(out: string, l4: Layer4Route)
    ensures l4.proxyProtocol == "v1" || l4.proxyProtocol == "v2" ==>
              WriteProxyProtocol(out, l4) == out + ("\t\t\t\tproxy_protocol " + l4.proxyProtocol + "\n")
    ensures l4.proxyProtocol != "v1" && l4.proxyProtocol != "v2" ==> WriteProxyProtocol(out, l4) == out
  {
  }

  /** The `match` block: nothing when the matcher is empty or `any`;
      otherwise the matcher followed by the route's domains, when it has
      any. */
  lemma MatchGate(out: string, l4: Layer4Route)
    ensures WriteMatch(out, l4) == out + WriteMatch("", l4)
    ensures l4.matchers == "" || l4.matchers == "any" ==> WriteMatch(out, l4) == out
    ensures l4.matchers != "" && l4.matchers != "any" && |l4.fromDomain| > 0 ==>
              WriteMatch(out, l4)
              == out + "\t\t\tmatch {\n" + ("\t\t\t\t" + l4.matchers) + (" " + Join(l4.fromDomain, " ")) + "\n\t\t\t}\n"
    ensures l4.matchers != "" && l4.matchers != "any" && |l4.fromDomain| == 0 ==>
              WriteMatch(out, l4) == out + "\t\t\tmatch {\n" + ("\t\t\t\t" + l4.matchers) + "\n\t\t\t}\n"
  {
    if l4.matchers != "" && l4.matchers != "any" {
      var m1, m2, close := "\t\t\tmatch {\n", "\t\t\t\t" + l4.matchers, "\n\t\t\t}\n";
      var d := " " + Join(l4.fromDomain, " ");
      assert "" + m1 == m1;
      AppendAssoc(out, m1, m2);
      OptAfter(out, m1 + m2, |l4.fromDomain| > 0, d);
      AppendAssoc(out, Opt(m1 + m2, |l4.fromDomain| > 0, d), close);
    } else {
      assert out + "" == out;
    }
  }

  /** The `proxy` block: nothing for a route without upstreams, and it
      does not depend on the text before it. */
  lemma ProxyAfter(out: string, l4: Layer4Route)
    ensures WriteProxy(out, l4) == out + WriteProxy("", l4)
    ensures |l4.toDomain| == 0 ==> WriteProxy(out, l4) == out
  {
    if |l4.toDomain| > 0 {
      var p, ul, close := "\t\t\tproxy", UpstreamList(l4.toDomain, l4.toPort), "\t\t\t}\n";
      var head := p + ul + " {\n";
      WriteUpstreamsIsList(out + p, l4.toDomain, l4.toPort);
      AppendAssoc(out, p, ul);
      AppendAssoc(out, p + ul, " {\n");
      ProxyBodyAfter(out, head, l4);
      assert "" + p == p;
      WriteUpstreamsIsList(p, l4.toDomain, l4.toPort);
      AppendAssoc(out, ProxyBody(head, l4), close);
    } else {
      assert out + "" == out;
    }
  }

  /** A route with upstreams writes a block opened by `proxy` with the
      upstream list and closed by its brace. */
  lemma ProxyFrame(out: string, l4: Layer4Route)
    requires |l4.toDomain| > 0
    ensures StartsWith(WriteProxy(out, l4), out + "\t\t\tproxy" + UpstreamList(l4.toDomain, l4.toPort) + " {\n")
    ensures EndsWith(WriteProxy(out, l4), "\t\t\t}\n")
  {
    var head := out + "\t\t\tproxy" + UpstreamList(l4.toDomain, l4.toPort) + " {\n";
    WriteUpstreamsIsList(out + "\t\t\tproxy", l4.toDomain, l4.toPort);
    var b := ProxyBody("", l4);
    assert head + "" == head;
    ProxyBodyAfter(head, "", l4);
    StartsWithAppend(head, head, b);
    StartsWithAppend(head + b, head, "\t\t\t}\n");
  }

  lemma ProxyBodyAfter(x: string, y: string, l4: Layer4Route)
    ensures ProxyBody(x + y, l4) == x + ProxyBody(y, l4)
  {
    var pp := "\t\t\t\tproxy_protocol " + l4.proxyProtocol + "\n";
    AppendAssoc(x, y, pp);
    var s0 := WriteProxyProtocol(y, l4);
    var l1 := "\t\t\t\tlb_policy " + l4.lbPolicy + "\n";
    var l2 := "\t\t\t\tpassive_health_fail_duration " + FormatDuration(l4.passiveHealthFailDuration) + "\n";
    var l3 := "\t\t\t\tpassive_health_max_fails " + IntToString(l4.passiveHealthMaxFails) + "\n";
    OptAfter(x, s0, l4.lbPolicy != "", l1);
    var s1 := Opt(s0, l4.lbPolicy != "", l1);
    OptAfter(x, s1, l4.passiveHealthFailDuration != "", l2);
    var s2 := Opt(s1, l4.passiveHealthFailDuration != "", l2);
    OptAfter(x, s2, l4.passiveHealthMaxFails != 0, l3);
  }

  /** The TLS lines of a route do not depend on the text before them. */
  lemma RouteTlsAfter(out: string, l4: Layer4Route)
    ensures WriteRouteTls(out, l4) == out + WriteRouteTls("", l4)
  {
    var tls := "\t\t\ttls\n";
    assert out + "" == out;
    OptAfter(out, "", l4.terminateTls, tls);
    var t := Opt("", l4.terminateTls, tls);
    AppendAssoc(out, t, "\t\t\ttls_client\n");
    AppendAssoc(out, t, "\t\t\ttls_client {\n\t\t\t\tinsecure_skip_verify\n\t\t\t}\n");
  }

  /** A disabled route writes nothing, and a route block does not depend on
      the text before it. */
  lemma RouteAfter(out: string, l4: Layer4Route)
    ensures WriteRoute(out, l4) == out + WriteRoute("", l4)
    ensures !l4.enabled ==> WriteRoute(out, l4) == out
  {
    if l4.enabled {
      var open, close := "\t\t:" + ListenPort(l4) + " {\n", "\t\t}\n";
      var m, p, t := WriteMatch("", l4), WriteProxy("", l4), WriteRouteTls("", l4);
      MatchGate(out + open, l4);
      ProxyAfter(out + open + m, l4);
      RouteTlsAfter(out + open + m + p, l4);
      assert "" + open == open;
      MatchGate(open, l4);
      ProxyAfter(open + m, l4);
      RouteTlsAfter(open + m + p, l4);
      AppendAssoc(out, open, m);
      AppendAssoc(out, open + m, p);
      AppendAssoc(out, open + m + p, t);
      AppendAssoc(out, open + m + p + t, close);
    } else {
      assert out + "" == out;
    }
  }

  /** An enabled route writes a block on its listener port, closed by its
      brace. */
  lemma RouteFrame(out: string, l4: Layer4Route)
    requires l4.enabled
    ensures StartsWith(WriteRoute(out, l4), out + ("\t\t:" + ListenPort(l4) + " {\n"))
    ensures EndsWith(WriteRoute(out, l4), "\t\t}\n")
  {
    var open := "\t\t:" + ListenPort(l4) + " {\n";
    var m, p, t := WriteMatch("", l4), WriteProxy("", l4), WriteRouteTls("", l4);
    MatchGate(out + open, l4);
    ProxyAfter(out + open + m, l4);
    RouteTlsAfter(out + open + m + p, l4);
    StartsWithAppend(out + open, out + open, m);
    StartsWithAppend(out + open + m, out + open, p);
    StartsWithAppend(out + open + m + p, out + open, t);
    StartsWithAppend(out + open + m + p + t, out + open, "\t\t}\n");
  }

  /** An enabled route writes, in this order, its `:port {` line, its match
      block, its proxy block, its TLS lines and the closing brace. */
  lemma RouteParts(out: string, l4: Layer4Route)
    requires l4.enabled
    ensures WriteRoute(out, l4)
            == out + ("\t\t:" + ListenPort(l4) + " {\n") + WriteMatch("", l4) + WriteProxy("", l4)
               + WriteRouteTls("", l4) + "\t\t}\n"
  {
    var open := "\t\t:" + ListenPort(l4) + " {\n";
    var m, p := WriteMatch("", l4), WriteProxy("", l4);
    MatchGate(out + open, l4);
    ProxyAfter(out + open + m, l4);
    RouteTlsAfter(out + open + m + p, l4);
  }

  /** The proxy body writes each of its lines (`proxy_protocol` for `v1` or
      `v2`, `lb_policy`, `passive_health_fail_duration` normalised by
      `formatDuration`, `passive_health_max_fails`) exactly when its setting
      is set, and nothing when none is. */
  lemma ProxyBodyLines(s: string, l4: Layer4Route)
    ensures l4.proxyProtocol != "v1" && l4.proxyProtocol != "v2" && l4.lbPolicy == ""
            && l4.passiveHealthFailDuration == "" && l4.passiveHealthMaxFails == 0
            ==> ProxyBody(s, l4) == s
    ensures l4.proxyProtocol == "v1" || l4.proxyProtocol == "v2" ==>
              LineInserted(ProxyBody(s, l4), ProxyBody(s, l4.(proxyProtocol := "")),
                           "\t\t\t\tproxy_protocol " + l4.proxyProtocol + "\n")
    ensures l4.lbPolicy != "" ==>
              LineInserted(ProxyBody(s, l4), ProxyBody(s, l4.(lbPolicy := "")),
                           "\t\t\t\tlb_policy " + l4.lbPolicy + "\n")
    ensures l4.passiveHealthFailDuration != "" ==>
              LineInserted(ProxyBody(s, l4), ProxyBody(s, l4.(passiveHealthFailDuration := "")),
                           "\t\t\t\tpassive_health_fail_duration " + FormatDuration(l4.passiveHealthFailDuration) + "\n")
    ensures l4.passiveHealthMaxFails != 0 ==>
              LineInserted(ProxyBody(s, l4), ProxyBody(s, l4.(passiveHealthMaxFails := 0)),
                           "\t\t\t\tpassive_health_max_fails " + IntToString(l4.passiveHealthMaxFails) + "\n")
  {
    Chain4Inserted(s,
      l4.proxyProtocol == "v1" || l4.proxyProtocol == "v2",
      "\t\t\t\tproxy_protocol " + l4.proxyProtocol + "\n", "\t\t\t\tproxy_protocol " + "" + "\n",
      l4.lbPolicy != "", "\t\t\t\tlb_policy " + l4.lbPolicy + "\n", "\t\t\t\tlb_policy " + "" + "\n",
      l4.passiveHealthFailDuration != "",
      "\t\t\t\tpassive_health_fail_duration " + FormatDuration(l4.passiveHealthFailDuration) + "\n",
      "\t\t\t\tpassive_health_fail_duration " + FormatDuration("") + "\n",
      l4.passiveHealthMaxFails != 0,
      "\t\t\t\tpassive_health_max_fails " + IntToString(l4.passiveHealthMaxFails) + "\n",
      "\t\t\t\tpassive_health_max_fails " + IntToString(0) + "\n");
  }

  /** Inside the `proxy` block of a route with upstreams, the
      `proxy_protocol` and `lb_policy` lines are each inserted exactly when
      their setting is set, and a route with no optional line set writes
      only the opening line and the closing brace. */
  lemma ProxyLines(out: string, l4: Layer4Route)
    requires |l4.toDomain| > 0
    ensures l4.proxyProtocol != "v1" && l4.proxyProtocol != "v2" && l4.lbPolicy == ""
            && l4.passiveHealthFailDuration == "" && l4.passiveHealthMaxFails == 0
            ==> WriteProxy(out, l4) == out + "\t\t\tproxy" + UpstreamList(l4.toDomain, l4.toPort) + " {\n" + "\t\t\t}\n"
    ensures l4.proxyProtocol == "v1" || l4.proxyProtocol == "v2" ==>
              LineInserted(WriteProxy(out, l4), WriteProxy(out, l4.(proxyProtocol := "")),
                           "\t\t\t\tproxy_protocol " + l4.proxyProtocol + "\n")
    ensures l4.lbPolicy != "" ==>
              LineInserted(WriteProxy(out, l4), WriteProxy(out, l4.(lbPolicy := "")),
                           "\t\t\t\tlb_policy " + l4.lbPolicy + "\n")
  {
    var head := WriteUpstreams(out + "\t\t\tproxy", l4.toDomain, l4.toPort) + " {\n";
    WriteUpstreamsIsList(out + "\t\t\tproxy", l4.toDomain, l4.toPort);
    ProxyBodyLines(head, l4);
    if l4.proxyProtocol == "v1" || l4.proxyProtocol == "v2" {
      InsertedThenMaybe(ProxyBody(head, l4), ProxyBody(head, l4.(proxyProtocol := "")),
                        "\t\t\t\tproxy_protocol " + l4.proxyProtocol + "\n", true, "\t\t\t}\n");
    }
    if l4.lbPolicy != "" {
      InsertedThenMaybe(ProxyBody(head, l4), ProxyBody(head, l4.(lbPolicy := "")),
                        "\t\t\t\tlb_policy " + l4.lbPolicy + "\n", true, "\t\t\t}\n");
    }
  }

  /** Inside the `proxy` block of a route with upstreams, the passive health
      lines are each inserted exactly when their setting is set, the
      failure duration normalised by `formatDuration`. */
  lemma ProxyPassiveLines(out: string, l4: Layer4Route)
    requires |l4.toDomain| > 0
    ensures l4.passiveHealthFailDuration != "" ==>
              LineInserted(WriteProxy(out, l4), WriteProxy(out, l4.(passiveHealthFailDuration := "")),
                           "\t\t\t\tpassive_health_fail_duration " + FormatDuration(l4.passiveHealthFailDuration) + "\n")
    ensures l4.passiveHealthMaxFails != 0 ==>
              LineInserted(WriteProxy(out, l4), WriteProxy(out, l4.(passiveHealthMaxFails := 0)),
                           "\t\t\t\tpassive_health_max_fails " + IntToString(l4.passiveHealthMaxFails) + "\n")
  {
    var head := WriteUpstreams(out + "\t\t\tproxy", l4.toDomain, l4.toPort) + " {\n";
    ProxyBodyLines(head, l4);
    if l4.passiveHealthFailDuration != "" {
      InsertedThenMaybe(ProxyBody(head, l4), ProxyBody(head, l4.(passiveHealthFailDuration := "")),
                        "\t\t\t\tpassive_health_fail_duration " + FormatDuration(l4.passiveHealthFailDuration) + "\n",
                        true, "\t\t\t}\n");
    }
    if l4.passiveHealthMaxFails != 0 {
      InsertedThenMaybe(ProxyBody(head, l4), ProxyBody(head, l4.(passiveHealthMaxFails := 0)),
                        "\t\t\t\tpassive_health_max_fails " + IntToString(l4.passiveHealthMaxFails) + "\n",
                        true, "\t\t\t}\n");
    }
  }

  /** The TLS lines of a route: `tls` first when the route terminates TLS,
      then `tls_client` for `tls`, or the `tls_client` block with
      `insecure_skip_verify` for `tls_insecure_skip_verify`, and no client
      line for any other value. */
  lemma RouteTlsLines(out: string, l4: Layer4Route)
    ensures l4.terminateTls ==> WriteRouteTls(out, l4) == WriteRouteTls(out + "\t\t\ttls\n", l4.(terminateTls := false))
    ensures !l4.terminateTls && l4.originateTls != "tls" && l4.originateTls != "tls_insecure_skip_verify"
            ==> WriteRouteTls(out, l4) == out
    ensures l4.originateTls == "tls" ==>
              WriteRouteTls(out, l4) == WriteRouteTls(out, l4.(originateTls := "")) + "\t\t\ttls_client\n"
    ensures l4.originateTls == "tls_insecure_skip_verify" ==>
              WriteRouteTls(out, l4)
              == WriteRouteTls(out, l4.(originateTls := "")) + "\t\t\ttls_client {\n\t\t\t\tinsecure_skip_verify\n\t\t\t}\n"
  {
  }

  /** The route blocks do not depend on the text before them. */
  lemma {:induction false} RoutesAfter(out: string, rs: seq<Layer4Route>)
    ensures WriteRoutes(out, rs) == out + WriteRoutes("", rs)
    decreases |rs|
  {
    if rs != [] {
      var init, l4 := rs[..|rs| - 1], rs[|rs| - 1];
      RoutesAfter(out, init);
      var w := WriteRoutes("", init);
      RouteAfter(out + w, l4);
      RouteAfter(w, l4);
      AppendAssoc(out, w, WriteRoute("", l4));
    } else {
      assert out + "" == out;
    }
  }

  /** The `layer4` block: nothing unless Layer4 is enabled and the route list
      is not empty (whether or not any route in it is enabled); otherwise a
      block opened by `layer4 {` and closed by its brace. */
  lemma Layer4Gate(out: string, g: General, rs: seq<Layer4Route>)
    ensures WriteLayer4(out, g, rs) == out + WriteLayer4("", g, rs)
    ensures !(g.enableLayer4 && |rs| > 0) ==> WriteLayer4(out, g, rs) == out
    ensures g.enableLayer4 && |rs| > 0 ==>
              StartsWith(WriteLayer4(out, g, rs), out + "\tlayer4 {\n") && EndsWith(WriteLayer4(out, g, rs), "\t}\n")
  {
    if g.enableLayer4 && |rs| > 0 {
      var open, close := "\tlayer4 {\n", "\t}\n";
      var w := WriteRoutes("", rs);
      RoutesAfter(out + open, rs);
      assert "" + open == open;
      RoutesAfter(open, rs);
      AppendAssoc(out, open, w);
      AppendAssoc(out, open + w, close);
      StartsWithAppend(out + open, out + open, w);
      StartsWithAppend(out + open + w, out + open, close);
    } else {
      assert out + "" == out;
    }
  }

  /** The options block is its parts in order, each written independently of
      the others: ports, log, ACME lines, `servers`, `layer4`, between `{`
      and the closing `}` and blank line. */
  lemma GlobalOptionsParts(g: General, rs: seq<Layer4Route>, logsDir: string)
    ensures GlobalOptions(g, rs, logsDir)
         == "{\n" + WritePorts("", g) + WriteGlobalLog("", g, logsDir) + WriteAcme("", g)
            + WriteServers("", g) + WriteLayer4("", g, rs) + "}\n\n"
    ensures StartsWith(GlobalOptions(g, rs, logsDir), "{\n")
  {
    var p, l, a := WritePorts("", g), WriteGlobalLog("", g, logsDir), WriteAcme("", g);
    var sv, l4 := WriteServers("", g), WriteLayer4("", g, rs);
    PortsGate("{\n", g);
    GlobalLogAfter("{\n" + p, g, logsDir);
    AcmeGate("{\n" + p + l, g);
    ServersAfter("{\n" + p + l + a, g);
    Layer4Gate("{\n" + p + l + a + sv, g, rs);
    var open := "{\n";
    StartsWithAppend(open, open, p);
    StartsWithAppend(open + p, open, l);
    StartsWithAppend(open + p + l, open, a);
    StartsWithAppend(open + p + l + a, open, sv);
    StartsWithAppend(open + p + l + a + sv, open, l4);
    StartsWithAppend(open + p + l + a + sv + l4, open, "}\n\n");
  }

  /** Each part of the options block reads only its own settings. */
  lemma PartsReadOwnSettings(g1: General, g2: General, rs: seq<Layer4Route>, logsDir: string)
    ensures g1.httpPort == g2.httpPort && g1.httpsPort == g2.httpsPort ==> WritePorts("", g1) == WritePorts("", g2)
    ensures g1.logLevel == g2.logLevel && g1.logRollSizeMb == g2.logRollSizeMb && g1.logRollKeep == g2.logRollKeep ==>
              WriteGlobalLog("", g1, logsDir) == WriteGlobalLog("", g2, logsDir)
    ensures g1.autoHttps == g2.autoHttps && g1.tlsEmail == g2.tlsEmail ==> WriteAcme("", g1) == WriteAcme("", g2)
    ensures g1.enableLayer4 == g2.enableLayer4 ==> WriteLayer4("", g1, rs) == WriteLayer4("", g2, rs)
  {
  }

  /** The `servers` block reads only the protocols, credential logging and
      timeout settings. */
  lemma ServersReadOwnSettings(g1: General, g2: General)
    requires g1.httpVersions == g2.httpVersions && g1.logCredentials == g2.logCredentials
    requires g1.timeoutReadBody == g2.timeoutReadBody && g1.timeoutReadHeader == g2.timeoutReadHeader
    requires g1.timeoutWrite == g2.timeoutWrite && g1.timeoutIdle == g2.timeoutIdle
    ensures WriteServers("", g1) == WriteServers("", g2)
  {
  }

  /** In the whole options block, setting a port adds exactly its line. */
  lemma OptionsPortInserted(g: General, rs: seq<Layer4Route>, logsDir: string)
    ensures g.httpPort != "" ==>
              LineInserted(GlobalOptions(g, rs, logsDir), GlobalOptions(g.(httpPort := ""), rs, logsDir),
                           "\thttp_port " + g.httpPort + "\n")
    ensures g.httpsPort != "" ==>
              LineInserted(GlobalOptions(g, rs, logsDir), GlobalOptions(g.(httpsPort := ""), rs, logsDir),
                           "\thttps_port " + g.httpsPort + "\n")
  {
    var l, a, sv, l4 := WriteGlobalLog("", g, logsDir), WriteAcme("", g), WriteServers("", g), WriteLayer4("", g, rs);
    GlobalOptionsParts(g, rs, logsDir);
    PortsGate("", g);
    if g.httpPort != "" {
      var g' := g.(httpPort := "");
      GlobalOptionsParts(g', rs, logsDir);
      PartsReadOwnSettings(g, g', rs, logsDir);
      ServersReadOwnSettings(g, g');
      FivePartsRegrouped("{\n", WritePorts("", g), l, a, sv, l4, "}\n\n");
      FivePartsRegrouped("{\n", WritePorts("", g'), l, a, sv, l4, "}\n\n");
      InsertedInContext("{\n", WritePorts("", g), WritePorts("", g'), "\thttp_port " + g.httpPort + "\n", l + a + sv + l4 + "}\n\n");
    }
    if g.httpsPort != "" {
      var g' := g.(httpsPort := "");
      GlobalOptionsParts(g', rs, logsDir);
      PartsReadOwnSettings(g, g', rs, logsDir);
      ServersReadOwnSettings(g, g');
      FivePartsRegrouped("{\n", WritePorts("", g), l, a, sv, l4, "}\n\n");
      FivePartsRegrouped("{\n", WritePorts("", g'), l, a, sv, l4, "}\n\n");
      InsertedInContext("{\n", WritePorts("", g), WritePorts("", g'), "\thttps_port " + g.httpsPort + "\n", l + a + sv + l4 + "}\n\n");
    }
  }

  /** In the whole options block, setting `auto_https` or the e-mail adds
      exactly its line. */
  lemma OptionsAcmeInserted(g: General, rs: seq<Layer4Route>, logsDir: string)
    ensures g.autoHttps != "" ==>
              LineInserted(GlobalOptions(g, rs, logsDir), GlobalOptions(g.(autoHttps := ""), rs, logsDir),
                           "\tauto_https " + g.autoHttps + "\n")
    ensures g.tlsEmail != "" ==>
              LineInserted(GlobalOptions(g, rs, logsDir), GlobalOptions(g.(tlsEmail := ""), rs, logsDir),
                           "\temail " + g.tlsEmail + "\n")
  {
    var p, l, sv, l4 := WritePorts("", g), WriteGlobalLog("", g, logsDir), WriteServers("", g), WriteLayer4("", g, rs);
    GlobalOptionsParts(g, rs, logsDir);
    AcmeGate("", g);
    if g.autoHttps != "" {
      var g' := g.(autoHttps := "");
      GlobalOptionsParts(g', rs, logsDir);
      PartsReadOwnSettings(g, g', rs, logsDir);
      ServersReadOwnSettings(g, g');
      FivePartsRegrouped("{\n", p, l, WriteAcme("", g), sv, l4, "}\n\n");
      FivePartsRegrouped("{\n", p, l, WriteAcme("", g'), sv, l4, "}\n\n");
      InsertedInContext("{\n" + p + l, WriteAcme("", g), WriteAcme("", g'), "\tauto_https " + g.autoHttps + "\n", sv + l4 + "}\n\n");
    }
    if g.tlsEmail != "" {
      var g' := g.(tlsEmail := "");
      GlobalOptionsParts(g', rs, logsDir);
      PartsReadOwnSettings(g, g', rs, logsDir);
      ServersReadOwnSettings(g, g');
      FivePartsRegrouped("{\n", p, l, WriteAcme("", g), sv, l4, "}\n\n");
      FivePartsRegrouped("{\n", p, l, WriteAcme("", g'), sv, l4, "}\n\n");
      InsertedInContext("{\n" + p + l, WriteAcme("", g), WriteAcme("", g'), "\temail " + g.tlsEmail + "\n", sv + l4 + "}\n\n");
    }
  }

  /** In the whole options block, setting a log level adds exactly the log
      block. */
  lemma OptionsLogInserted(g: General, rs: seq<Layer4Route>, logsDir: string)
    requires g.logLevel != ""
    ensures LineInserted(GlobalOptions(g, rs, logsDir), GlobalOptions(g.(logLevel := ""), rs, logsDir),
                         WriteGlobalLog("", g, logsDir))
  {
    var g' := g.(logLevel := "");
    var p, a, sv, l4 := WritePorts("", g), WriteAcme("", g), WriteServers("", g), WriteLayer4("", g, rs);
    var l := WriteGlobalLog("", g, logsDir);
    GlobalOptionsParts(g, rs, logsDir);
    GlobalOptionsParts(g', rs, logsDir);
    PartsReadOwnSettings(g, g', rs, logsDir);
    ServersReadOwnSettings(g, g');
    GlobalLogAfter("", g', logsDir);
    PartInserted(l);
    FivePartsRegrouped("{\n", p, l, a, sv, l4, "}\n\n");
    FivePartsRegrouped("{\n", p, "", a, sv, l4, "}\n\n");
    InsertedInContext("{\n" + p, l, "", l, a + sv + l4 + "}\n\n");
  }

  /** In the whole options block, the `servers` settings add exactly the
      `servers` block. */
  lemma OptionsServersInserted(g: General, rs: seq<Layer4Route>, logsDir: string)
    requires AnyServerOption(g)
    ensures LineInserted(GlobalOptions(g, rs, logsDir),
                         GlobalOptions(g.(httpVersions := "", logCredentials := false, timeoutReadBody := "",
                                          timeoutReadHeader := "", timeoutWrite := "", timeoutIdle := ""), rs, logsDir),
                         WriteServers("", g))
  {
    var g' := g.(httpVersions := "", logCredentials := false, timeoutReadBody := "",
                 timeoutReadHeader := "", timeoutWrite := "", timeoutIdle := "");
    var p, l, a, l4 := WritePorts("", g), WriteGlobalLog("", g, logsDir), WriteAcme("", g), WriteLayer4("", g, rs);
    var sv := WriteServers("", g);
    GlobalOptionsParts(g, rs, logsDir);
    GlobalOptionsParts(g', rs, logsDir);
    PartsReadOwnSettings(g, g', rs, logsDir);
    ServersAfter("", g');
    PartInserted(sv);
    FivePartsRegrouped("{\n", p, l, a, sv, l4, "}\n\n");
    FivePartsRegrouped("{\n", p, l, a, "", l4, "}\n\n");
    InsertedInContext("{\n" + p + l + a, sv, "", sv, l4 + "}\n\n");
  }

  /** In the whole options block, the routes add exactly the `layer4`
      block. */
  lemma OptionsLayer4Inserted(g: General, rs: seq<Layer4Route>, logsDir: string)
    ensures LineInserted(GlobalOptions(g, rs, logsDir), GlobalOptions(g, [], logsDir), WriteLayer4("", g, rs))
  {
    var p, l, a, sv := WritePorts("", g), WriteGlobalLog("", g, logsDir), WriteAcme("", g), WriteServers("", g);
    var l4 := WriteLayer4("", g, rs);
    GlobalOptionsParts(g, rs, logsDir);
    GlobalOptionsParts(g, [], logsDir);
    assert WriteLayer4("", g, []) == "";
    PartInserted(l4);
    InsertedInContext("{\n" + p + l + a + sv, l4, "", l4, "}\n\n");
  }

  /** With nothing set, the options block is empty. */
  lemma EmptyOptions(g: General, rs: seq<Layer4Route>, logsDir: string)
    requires g.httpPort == "" && g.httpsPort == "" && g.logLevel == "" && g.autoHttps == "" && g.tlsEmail == ""
    requires !AnyServerOption(g) && !(g.enableLayer4 && |rs| > 0)
    ensures GlobalOptions(g, rs, logsDir) == "{\n}\n\n"
  {
  }

  /** With every route disabled, the `layer4` block is still opened, empty. */
  lemma AllRoutesDisabled(out: string, g: General, rs: seq<Layer4Route>)
    requires g.enableLayer4 && |rs| > 0
    requires forall i :: 0 <= i < |rs| ==> !rs[i].enabled
    ensures WriteLayer4(out, g, rs) == out + "\tlayer4 {\n" + "\t}\n"
  {
    DisabledRoutesSkipped(out + "\tlayer4 {\n", rs);
    NoneEnabled(rs);
  }

  lemma {:induction false} NoneEnabled(rs: seq<Layer4Route>)
    requires forall i :: 0 <= i < |rs| ==> !rs[i].enabled
    ensures EnabledRoutes(rs) == []
    decreases |rs|
  {
    if rs != [] {
      NoneEnabled(rs[..|rs| - 1]);
    }
  }

  // ----- The imperative emitters -----

  /** The `match` part of one route block (lines 72-79). */
  method EmitMatch(acc: string, l4: Layer4Route) returns (sb: string)
    ensures sb == WriteMatch(acc, l4)
  {
    sb := acc;
    if l4.matchers != "" && l4.matchers != "any" {
      sb := sb + "\t\t\tmatch {\n";
      sb := sb + ("\t\t\t\t" + l4.matchers);
      if |l4.fromDomain| > 0 {
        sb := sb + (" " + Join(l4.fromDomain, " "));
      }
      sb := sb + "\n\t\t\t}\n";
    }
  }

  /** The `proxy` part of one route block (lines 82-101). */
  method EmitProxy(acc: string, l4: Layer4Route) returns (sb: string)
    ensures sb == WriteProxy(acc, l4)
  {
    sb := acc;
    if |l4.toDomain| > 0 {
      sb := sb + "\t\t\tproxy";
      sb := AppendUpstreams(sb, l4.toDomain, l4.toPort);
      sb := sb + " {\n";
      if l4.proxyProtocol == "v1" || l4.proxyProtocol == "v2" {
        sb := sb + ("\t\t\t\tproxy_protocol " + l4.proxyProtocol + "\n");
      }
      if l4.lbPolicy != "" {
        sb := sb + ("\t\t\t\tlb_policy " + l4.lbPolicy + "\n");
      }
      if l4.passiveHealthFailDuration != "" {
        sb := sb + ("\t\t\t\tpassive_health_fail_duration " + FormatDuration(l4.passiveHealthFailDuration) + "\n");
      }
      if l4.passiveHealthMaxFails != 0 {
        sb := sb + ("\t\t\t\tpassive_health_max_fails " + IntToString(l4.passiveHealthMaxFails) + "\n");
      }
      sb := sb + "\t\t\t}\n";
    }
  }

  /** One pass of the `for (const l4 of config.layer4)` loop: `continue` for
      a disabled route, otherwise its listener block. */
  method EmitRoute(acc: string, l4: Layer4Route) returns (sb: string)
    ensures sb == WriteRoute(acc, l4)
  {
    sb := acc;
    if !l4.enabled {
      return;
    }
    var listenPort := l4.fromPort;
    if listenPort == "" {
      listenPort := "443";
    }
    sb := sb + ("\t\t:" + listenPort + " {\n");
    sb := EmitMatch(sb, l4);
    sb := EmitProxy(sb, l4);
    if l4.terminateTls {
      sb := sb + "\t\t\ttls\n";
    }
    if l4.originateTls == "tls" {
      sb := sb + "\t\t\ttls_client\n";
    } else if l4.originateTls == "tls_insecure_skip_verify" {
      sb := sb + "\t\t\ttls_client {\n\t\t\t\tinsecure_skip_verify\n\t\t\t}\n";
    }
    sb := sb + "\t\t}\n";
  }

  /** The `layer4` block (lines 63-115): the loop over all routes. */
  method EmitLayer4(acc: string, g: General, routes: seq<Layer4Route>) returns (sb: string)
    ensures sb == WriteLayer4(acc, g, routes)
  {
    sb := acc;
    if g.enableLayer4 && |routes| > 0 {
      sb := sb + "\tlayer4 {\n";
      ghost var open := sb;
      for i := 0 to |routes|
        invariant sb == WriteRoutes(open, routes[..i])
      {
        assert routes[..i + 1][..i] == routes[..i];
        sb := EmitRoute(sb, routes[i]);
      }
      assert routes[..|routes|] == routes;
      sb := sb + "\t}\n";
    }
  }

  /** The `servers` block and its nested `timeouts` block (lines 43-60). */
  method EmitServers(acc: string, g: General) returns (sb: string)
    ensures sb == WriteServers(acc, g)
  {
    sb := acc;
    if g.httpVersions != "" || g.timeoutReadBody != "" || g.timeoutReadHeader != ""
       || g.timeoutWrite != "" || g.timeoutIdle != "" || g.logCredentials {
      sb := sb + "\tservers {\n";
      if g.httpVersions != "" {
        sb := sb + ("\t\tprotocols " + g.httpVersions + "\n");
      }
      if g.logCredentials {
        sb := sb + "\t\tlog_credentials\n";
      }
      if g.timeoutReadBody != "" || g.timeoutReadHeader != "" || g.timeoutWrite != "" || g.timeoutIdle != "" {
        sb := sb + "\t\ttimeouts {\n";
        if g.timeoutReadBody != "" { sb := sb + ("\t\t\tread_body " + FormatDuration(g.timeoutReadBody) + "\n"); }
        if g.timeoutReadHeader != "" { sb := sb + ("\t\t\tread_header " + FormatDuration(g.timeoutReadHeader) + "\n"); }
        if g.timeoutWrite != "" { sb := sb + ("\t\t\twrite " + FormatDuration(g.timeoutWrite) + "\n"); }
        if g.timeoutIdle != "" { sb := sb + ("\t\t\tidle " + FormatDuration(g.timeoutIdle) + "\n"); }
        sb := sb + "\t\t}\n";
      }
      sb := sb + "\t}\n";
    }
  }

  /** The global `log` block (lines 21-33). */
  method EmitGlobalLog(acc: string, g: General, logsDir: string) returns (sb: string)
    ensures sb == WriteGlobalLog(acc, g, logsDir)
  {
    sb := acc;
    var rollSize := if g.logRollSizeMb != 0 then g.logRollSizeMb else 10;
    var rollKeep := if g.logRollKeep != 0 then g.logRollKeep else 7;
    if g.logLevel != "" {
      sb := sb + "\tlog {\n";
      sb := sb + ("\t\toutput file " + logsDir + "/caddy-global.log {\n");
      sb := sb + ("\t\t\troll_size " + IntToString(rollSize) + "MiB\n");
      sb := sb + ("\t\t\troll_keep " + IntToString(rollKeep) + "\n");
      sb := sb + "\t\t}\n";
      sb := sb + ("\t\tlevel " + g.logLevel + "\n");
      sb := sb + "\t}\n";
    }
  }

  /** The options block as the source builds it (lines 14-116), through the
      closing `}` and blank line. */
  method EmitGlobalOptions(g: General, routes: seq<Layer4Route>, logsDir: string) returns (sb: string)
    ensures sb == GlobalOptions(g, routes, logsDir)
  {
    sb := "{\n";
    if g.httpPort != "" {
      sb := sb + ("\thttp_port " + g.httpPort + "\n");
    }
    if g.httpsPort != "" {
      sb := sb + ("\thttps_port " + g.httpsPort + "\n");
    }
    sb := EmitGlobalLog(sb, g, logsDir);
    if g.autoHttps != "" {
      sb := sb + ("\tauto_https " + g.autoHttps + "\n");
    }
    if g.tlsEmail != "" {
      sb := sb + ("\temail " + g.tlsEmail + "\n");
    }
    sb := EmitServers(sb, g);
    sb := EmitLayer4(sb, g, routes);
    sb := sb + "}\n\n";
  }
}
