/** One site block of src/caddy.js (`generateCaddyfile`, lines 190-500): the
    site addresses (the domain and its attached subdomains), TLS, the access
    log, the domain's access lists and basic auth, and the blocks of the
    handlers grouped under the domain that pass the subdomain check. */
module NodeSite {
  import opened Text
  import opened Records
  import opened Addresses
  import opened Relations
  import opened NodeGlobal
  import opened NodeAccess
  import opened NodeHandler

  /** The id-keyed lookup tables a site block reads. */
  datatype Tables = Tables(
    accessLists: map<string, AccessList>,
    basicAuths: map<string, BasicAuth>,
    headers: map<string, Header>,
    subsById: map<string, Subdomain>)

  /** The port of the domain's site addresses. */
  function SitePort(d: Domain): string
  {
    EffectivePort(d.fromPort, d.disableTls)
  }

  /** The site addresses as the generators build them: the domain's own
      address first, then one per attached subdomain, in order, all on the
      same port. A subdomain's address joins its label to the parent's
      `fromDomain` before the scheme test. */
  function SiteAddrs(d: Domain, subs: seq<Subdomain>): (r: seq<string>)
    ensures |r| == |subs| + 1
    ensures r[0] == BaseAddress(d.fromDomain, SitePort(d), d.disableTls)
    ensures forall k :: 0 <= k < |subs| ==>
              r[k + 1] == SubdomainAddressAsWritten(subs[k].fromDomain, d.fromDomain, SitePort(d), d.disableTls)
    decreases |subs|
  {
    if subs == [] then [BaseAddress(d.fromDomain, SitePort(d), d.disableTls)]
    else
      var init := SiteAddrs(d, subs[..|subs| - 1]);
      var r := init + [SubdomainAddressAsWritten(subs[|subs| - 1].fromDomain, d.fromDomain, SitePort(d), d.disableTls)];
      assert forall k :: 0 <= k < |subs| - 1 ==> r[k + 1] == init[k + 1] && subs[..|subs| - 1][k] == subs[k];
      r
  }

  /** The site addresses with each subdomain's label placed after the
      parent's scheme, as intended for a parent entered with a scheme. */
  function CorrectedSiteAddrs(d: Domain, subs: seq<Subdomain>): (r: seq<string>)
    ensures |r| == |subs| + 1
    ensures r[0] == BaseAddress(d.fromDomain, SitePort(d), d.disableTls)
    ensures forall k :: 0 <= k < |subs| ==>
              r[k + 1] == SubdomainAddress(subs[k].fromDomain, d.fromDomain, SitePort(d), d.disableTls)
    decreases |subs|
  {
    if subs == [] then [BaseAddress(d.fromDomain, SitePort(d), d.disableTls)]
    else
      var init := CorrectedSiteAddrs(d, subs[..|subs| - 1]);
      var r := init + [SubdomainAddress(subs[|subs| - 1].fromDomain, d.fromDomain, SitePort(d), d.disableTls)];
      assert forall k :: 0 <= k < |subs| - 1 ==> r[k + 1] == init[k + 1] && subs[..|subs| - 1][k] == subs[k];
      r
  }

  /** The `client_auth` block inside `tls`, present when a mode is set; the
      trust pool only counts with a mode. */
  function WriteClientAuth(out: string, d: Domain, certsDir: string): string
  {
    if d.clientAuthMode == "" then out
    else
      var s := out + "\t\tclient_auth {\n\t\t\tmode " + d.clientAuthMode + "\n";
      var s := if d.clientAuthTrustPool != "" then
                 s + "\t\t\ttrusted_ca_cert " + JoinPath(certsDir, d.clientAuthTrustPool) + "\n"
               else s;
      s + "\t\t}\n"
  }

  /** The site's `tls` block: none for a plain-HTTP site, the custom
      certificate and its key file when one is set, Caddy's internal issuer
      otherwise. */
  function WriteSiteTls(out: string, d: Domain, certsDir: string): string
  {
    if d.disableTls then out
    else if d.customCert != "" then
      var s := out + "\ttls " + JoinPath(certsDir, d.customCert) + " "
               + JoinPath(certsDir, KeyFileName(d.customCert)) + " {\n";
      WriteClientAuth(s, d, certsDir) + "\t}\n"
    else
      WriteClientAuth(out + "\ttls internal {\n", d, certsDir) + "\t}\n"
  }

  /** The site's access log: a rolling file named after the domain in
      `logsDir`, rolled like the global log. */
  function WriteAccessLog(out: string, d: Domain, g: General, logsDir: string): string
  {
    if !d.accessLog then out
    else
      out + "\tlog {\n"
      + "\t\toutput file " + logsDir + "/" + d.fromDomain + ".log {\n"
      + "\t\t\troll_size " + IntToString(RollSize(g)) + "MiB\n"
      + "\t\t\troll_keep " + IntToString(RollKeep(g)) + "\n"
      + "\t\t}\n"
      + "\t}\n"
  }

  /** The subdomain check: a handler tied to a subdomain is written under
      domain `did` only when that subdomain is enabled and attached to
      `did`. */
  predicate InScope(h: Handler, did: string, subsById: map<string, Subdomain>)
  {
    h.subdomain == "" || (h.subdomain in subsById && subsById[h.subdomain].reverse == did)
  }

  /** The handler blocks of a site: the grouped handlers in order, skipping
      those that fail the subdomain check. */
  function WriteHandlers(out: string, hs: seq<Handler>, did: string, t: Tables, certsDir: string): string
    decreases |hs|
  {
    if hs == [] then out
    else
      var s := WriteHandlers(out, hs[..|hs| - 1], did, t, certsDir);
      var h := hs[|hs| - 1];
      if InScope(h, did, t.subsById) then WriteHandler(s, h, t.accessLists, t.basicAuths, t.headers, certsDir)
      else s
  }

  /** Every handler block of `hs`, in order, unconditionally. */
  function WriteHandlerSeq(out: string, hs: seq<Handler>, t: Tables, certsDir: string): string
    decreases |hs|
  {
    if hs == [] then out
    else WriteHandler(WriteHandlerSeq(out, hs[..|hs| - 1], t, certsDir), hs[|hs| - 1],
                      t.accessLists, t.basicAuths, t.headers, certsDir)
  }

  /** Reference definition: the handlers written under domain id `did`,
      in input order: enabled, owned by `did`, and passing the subdomain
      check. */
  /** A handler is written in the block of domain id `did`: it is enabled,
      belongs to `did` and passes the subdomain check there. */
  predicate PlacedUnder(h: Handler, subsById: map<string, Subdomain>, did: string)
  {
    h.enabled && did != "" && OwnerId(h, subsById) == did && InScope(h, did, subsById)
  }

  function ScopedHandlers(hs: seq<Handler>, subsById: map<string, Subdomain>, did: string): (r: seq<Handler>)
    ensures forall h :: h in r ==>
              h in hs && h.enabled && did != "" && OwnerId(h, subsById) == did && InScope(h, did, subsById)
    decreases |hs|
  {
    if hs == [] then []
    else
      var h := hs[|hs| - 1];
      ScopedHandlers(hs[..|hs| - 1], subsById, did) + (if PlacedUnder(h, subsById, did) then [h] else [])
  }

  /** A site block up to its handlers: the address line, TLS, the access
      log, the domain's access lists and basic auth. */
  function WriteSiteHead(out: string, d: Domain, subs: seq<Subdomain>, t: Tables,
                         g: General, logsDir: string, certsDir: string): string
  {
    var s := out + Join(SiteAddrs(d, subs), ", ") + " {\n";
    var s := WriteSiteTls(s, d, certsDir);
    var s := WriteAccessLog(s, d, g, logsDir);
    var s := WriteAccessLists(s, d.accesslist, t.accessLists, "\t", "@al_");
    WriteBasicAuths(s, d.basicauth, t.basicAuths, "\t")
  }

  /** A whole site block. */
  function WriteSite(out: string, d: Domain, subs: seq<Subdomain>, hs: seq<Handler>, t: Tables,
                     g: General, logsDir: string, certsDir: string): string
  {
    WriteHandlers(WriteSiteHead(out, d, subs, t, g, logsDir, certsDir), hs, d.id, t, certsDir) + "}\n\n"
  }

  // ----- Properties -----

  /** Every site address carries a scheme and the site's port. */
  lemma SiteAddrsShape(d: Domain, subs: seq<Subdomain>)
    ensures forall a :: a in SiteAddrs(d, subs) ==> HasScheme(a) && EndsWith(a, ":" + SitePort(d))
  {
    var r := SiteAddrs(d, subs);
    forall a | a in r
      ensures HasScheme(a) && EndsWith(a, ":" + SitePort(d))
    {
      var k :| 0 <= k < |r| && r[k] == a;
      if k > 0 {
        assert r[k] == SubdomainAddressAsWritten(subs[k - 1].fromDomain, d.fromDomain, SitePort(d), d.disableTls);
      }
    }
  }

  /** For a parent entered without a scheme, a subdomain's address is its
      parent's with the label and a dot put in front of the host: same
      scheme, same port. */
  lemma SubdomainSharesSchemeAndPort(d: Domain, subs: seq<Subdomain>, k: nat)
    requires k < |subs|
    requires !HasScheme(d.fromDomain) && !HasScheme(subs[k].fromDomain + "." + d.fromDomain)
    ensures SiteAddrs(d, subs)[0] == SchemeFor(d.disableTls) + d.fromDomain + ":" + SitePort(d)
    ensures SiteAddrs(d, subs)[k + 1]
         == SchemeFor(d.disableTls) + subs[k].fromDomain + "." + d.fromDomain + ":" + SitePort(d)
  {
    UnschemedParentAddresses(subs[k].fromDomain, d.fromDomain, SitePort(d), d.disableTls);
  }

  /** The corrected list is the list the generators build whenever the
      domain is entered without a scheme. */
  lemma CorrectedSiteAddrsAgree(d: Domain, subs: seq<Subdomain>)
    requires !HasScheme(d.fromDomain)
    ensures CorrectedSiteAddrs(d, subs) == SiteAddrs(d, subs)
  {
    var a, c := SiteAddrs(d, subs), CorrectedSiteAddrs(d, subs);
    forall i | 0 <= i < |a|
      ensures a[i] == c[i]
    {
      if i > 0 {
        var sub := subs[i - 1];
        assert a[i] == SubdomainAddressAsWritten(sub.fromDomain, d.fromDomain, SitePort(d), d.disableTls);
        assert c[i] == SubdomainAddress(sub.fromDomain, d.fromDomain, SitePort(d), d.disableTls);
        SubdomainAddressAgrees(sub.fromDomain, d.fromDomain, SitePort(d), d.disableTls);
      }
    }
  }

  /** Without a client-auth mode the `tls` block holds only its opening
      line, and the trust pool is ignored. */
  lemma TlsWithoutClientAuth(out: string, d: Domain, certsDir: string)
    requires d.clientAuthMode == ""
    ensures d.disableTls ==> WriteSiteTls(out, d, certsDir) == out
    ensures !d.disableTls && d.customCert != "" ==>
              WriteSiteTls(out, d, certsDir)
              == out + "\ttls " + JoinPath(certsDir, d.customCert) + " "
                 + JoinPath(certsDir, KeyFileName(d.customCert)) + " {\n" + "\t}\n"
    ensures !d.disableTls && d.customCert == "" ==>
              WriteSiteTls(out, d, certsDir) == out + "\ttls internal {\n" + "\t}\n"
    ensures WriteSiteTls(out, d, certsDir) == WriteSiteTls(out, d.(clientAuthTrustPool := ""), certsDir)
  {
  }

  /** The `client_auth` block is written exactly when a mode is set, opens
      with that mode and closes the block; a trust pool adds exactly its
      `trusted_ca_cert` line, the pool joined to the certificates
      directory, and only beside a mode. */
  lemma ClientAuthGate(out: string, d: Domain, certsDir: string)
    ensures d.clientAuthMode == "" ==> WriteClientAuth(out, d, certsDir) == out
    ensures d.clientAuthMode != "" ==>
              StartsWith(WriteClientAuth(out, d, certsDir), out + "\t\tclient_auth {\n\t\t\tmode " + d.clientAuthMode + "\n")
              && EndsWith(WriteClientAuth(out, d, certsDir), "\t\t}\n")
    ensures d.clientAuthMode != "" && d.clientAuthTrustPool == "" ==>
              WriteClientAuth(out, d, certsDir) == out + "\t\tclient_auth {\n\t\t\tmode " + d.clientAuthMode + "\n" + "\t\t}\n"
    ensures d.clientAuthMode != "" && d.clientAuthTrustPool != "" ==>
              LineInserted(WriteClientAuth(out, d, certsDir), WriteClientAuth(out, d.(clientAuthTrustPool := ""), certsDir),
                           "\t\t\ttrusted_ca_cert " + JoinPath(certsDir, d.clientAuthTrustPool) + "\n")
  {
    if d.clientAuthMode != "" {
      var head := out + "\t\tclient_auth {\n\t\t\tmode " + d.clientAuthMode + "\n";
      var r := WriteClientAuth(out, d, certsDir);
      if d.clientAuthTrustPool != "" {
        var line := "\t\t\ttrusted_ca_cert " + JoinPath(certsDir, d.clientAuthTrustPool) + "\n";
        assert r == head + line + "\t\t}\n";
        var b := head + "\t\t}\n";
        assert b[..|head|] == head && b[|head|..] == "\t\t}\n";
        assert r == b[..|head|] + line + b[|head|..];
        assert (head + line + "\t\t}\n")[..|head|] == head;
        assert r[|r| - 4..] == "\t\t}\n";
      } else {
        assert r[..|head|] == head;
        assert r[|r| - 4..] == "\t\t}\n";
      }
    }
  }

  /** A plain-HTTP site writes no `tls` block at all, whatever its
      certificate and client-auth settings say. */
  lemma PlainHttpHasNoTls(out: string, d: Domain, certsDir: string)
    requires d.disableTls
    ensures WriteSiteTls(out, d, certsDir) == out
    ensures SitePort(d) == (if d.fromPort != "" then d.fromPort else "80")
    ensures StartsWith(SiteAddrs(d, [])[0], "http://") || StartsWith(d.fromDomain, "https://")
  {
    var w := WithScheme(d.fromDomain, true);
    var a := SiteAddrs(d, [])[0];
    assert a == w + ":" + SitePort(d);
    if !HasScheme(d.fromDomain) {
      assert a[..7] == w[..7];
    } else if StartsWith(d.fromDomain, "http://") {
      assert a[..7] == d.fromDomain[..7];
    }
  }

  /** The access log is written exactly when it is switched on. */
  lemma AccessLogGate(out: string, d: Domain, g: General, logsDir: string)
    ensures !d.accessLog ==> WriteAccessLog(out, d, g, logsDir) == out
    ensures d.accessLog ==>
              StartsWith(WriteAccessLog(out, d, g, logsDir),
                         out + "\tlog {\n" + "\t\toutput file " + logsDir + "/" + d.fromDomain + ".log {\n")
  {
    if d.accessLog {
      var p := out + "\tlog {\n" + "\t\toutput file " + logsDir + "/" + d.fromDomain + ".log {\n";
      var r := WriteAccessLog(out, d, g, logsDir);
      var q1 := p + "\t\t\troll_size " + IntToString(RollSize(g)) + "MiB\n";
      var q2 := q1 + "\t\t\troll_keep " + IntToString(RollKeep(g)) + "\n";
      var q3 := q2 + "\t\t}\n";
      assert r == q3 + "\t}\n";
      assert r[..|p|] == p;
    }
  }

  /** A handler is among those written under `did` exactly when it is
      enabled, owned by `did` and passes the subdomain check. */
  lemma {:induction false} ScopedHandlersMembers(hs: seq<Handler>, subsById: map<string, Subdomain>, did: string, h: Handler)
    ensures h in ScopedHandlers(hs, subsById, did)
        <==> h in hs && h.enabled && did != "" && OwnerId(h, subsById) == did && InScope(h, did, subsById)
    decreases |hs|
  {
    if hs != [] {
      var init := hs[..|hs| - 1];
      ScopedHandlersMembers(init, subsById, did, h);
      assert hs == init + [hs[|hs| - 1]];
    }
  }

  /** A handler is written under its domain once for each time it occurs in
      the handler list (a repeated entry is written again), and under no
      other domain id. */
  lemma {:induction false} HandlerPlacedOnce(hs: seq<Handler>, subsById: map<string, Subdomain>, did: string,
                                             other: string, h: Handler)
    ensures multiset(ScopedHandlers(hs, subsById, did))[h]
            == if h.enabled && did != "" && OwnerId(h, subsById) == did && InScope(h, did, subsById)
               then multiset(hs)[h] else 0
    ensures other != did ==> h !in ScopedHandlers(hs, subsById, did) || h !in ScopedHandlers(hs, subsById, other)
    decreases |hs|
  {
    if hs != [] {
      var init, last := hs[..|hs| - 1], hs[|hs| - 1];
      HandlerPlacedOnce(init, subsById, did, other, h);
      assert hs == init + [last];
      var tail := if PlacedUnder(last, subsById, did) then [last] else [];
      assert ScopedHandlers(hs, subsById, did) == ScopedHandlers(init, subsById, did) + tail;
    }
  }

  /** A handler that names one domain but a subdomain of another is grouped
      under the domain it names, then fails the subdomain check there: it is
      written under no domain. */
  lemma MismatchedSubdomainDropped(hs: seq<Handler>, subsById: map<string, Subdomain>, did: string, h: Handler)
    requires h.reverse != "" && h.subdomain != ""
    requires h.subdomain in subsById && subsById[h.subdomain].reverse != h.reverse
    ensures h !in ScopedHandlers(hs, subsById, did)
  {
  }

  /** Writing the handlers grouped under `did` with the subdomain check is
      writing exactly the scoped handlers. */
  lemma {:induction false} OwnedHandlersWritten(out: string, hs: seq<Handler>, did: string, t: Tables, certsDir: string)
    ensures WriteHandlers(out, OwnedHandlers(hs, t.subsById, did), did, t, certsDir)
         == WriteHandlerSeq(out, ScopedHandlers(hs, t.subsById, did), t, certsDir)
    decreases |hs|
  {
    if hs != [] {
      var init, h := hs[..|hs| - 1], hs[|hs| - 1];
      OwnedHandlersWritten(out, init, did, t, certsDir);
      var owned := OwnedHandlers(init, t.subsById, did);
      var scoped := ScopedHandlers(init, t.subsById, did);
      if h.enabled && did != "" && OwnerId(h, t.subsById) == did {
        assert OwnedHandlers(hs, t.subsById, did) == owned + [h];
        WriteHandlersSnoc(out, owned, h, did, t, certsDir);
        if InScope(h, did, t.subsById) {
          assert ScopedHandlers(hs, t.subsById, did) == scoped + [h];
          WriteHandlerSeqSnoc(out, scoped, h, t, certsDir);
        } else {
          assert ScopedHandlers(hs, t.subsById, did) == scoped;
        }
      } else {
        assert OwnedHandlers(hs, t.subsById, did) == owned;
        assert ScopedHandlers(hs, t.subsById, did) == scoped;
      }
    }
  }

  /** One more handler at the end of the list adds its block when it passes
      the subdomain check. */
  lemma WriteHandlersSnoc(out: string, hs: seq<Handler>, h: Handler, did: string, t: Tables, certsDir: string)
    ensures WriteHandlers(out, hs + [h], did, t, certsDir)
         == if InScope(h, did, t.subsById) then
              WriteHandler(WriteHandlers(out, hs, did, t, certsDir), h, t.accessLists, t.basicAuths, t.headers, certsDir)
            else WriteHandlers(out, hs, did, t, certsDir)
  {
    assert (hs + [h])[..|hs|] == hs;
  }

  /** One more handler at the end of the list adds its block. */
  lemma WriteHandlerSeqSnoc(out: string, hs: seq<Handler>, h: Handler, t: Tables, certsDir: string)
    ensures WriteHandlerSeq(out, hs + [h], t, certsDir)
         == WriteHandler(WriteHandlerSeq(out, hs, t, certsDir), h, t.accessLists, t.basicAuths, t.headers, certsDir)
  {
    assert (hs + [h])[..|hs|] == hs;
  }

  // ----- The imperative emitters -----

  /** The site port and the domain's own address (lines 197-207). */
  method BaseSiteAddress(d: Domain) returns (port: string, addr: string)
    ensures port == SitePort(d)
    ensures addr == BaseAddress(d.fromDomain, port, d.disableTls)
  {
    port := d.fromPort;
    if port == "" {
      port := if d.disableTls then "80" else "443";
    }
    var baseAddr := d.fromDomain;
    if !StartsWith(baseAddr, "http://") && !StartsWith(baseAddr, "https://") {
      baseAddr := if d.disableTls then "http://" + baseAddr else "https://" + baseAddr;
    }
    assert baseAddr == WithScheme(d.fromDomain, d.disableTls);
    addr := baseAddr + ":" + port;
  }

  /** One subdomain's address (lines 209-214): the label joined to the
      parent's `fromDomain`, given a scheme when the joined name has none,
      and the port. */
  method SubSiteAddress(sub: Subdomain, d: Domain, port: string) returns (addr: string)
    ensures addr == SubdomainAddressAsWritten(sub.fromDomain, d.fromDomain, port, d.disableTls)
  {
    var subAddr := sub.fromDomain + "." + d.fromDomain;
    if !StartsWith(subAddr, "http://") && !StartsWith(subAddr, "https://") {
      subAddr := if d.disableTls then "http://" + subAddr else "https://" + subAddr;
    }
    assert subAddr == WithScheme(sub.fromDomain + "." + d.fromDomain, d.disableTls);
    addr := subAddr + ":" + port;
  }

  /** The site address list (lines 197-215). */
  method CollectSiteAddresses(d: Domain, subs: seq<Subdomain>) returns (siteAddrs: seq<string>)
    ensures siteAddrs == SiteAddrs(d, subs)
  {
    var port, baseAddr := BaseSiteAddress(d);
    siteAddrs := [baseAddr];
    for i := 0 to |subs|
      invariant siteAddrs == SiteAddrs(d, subs[..i])
    {
      assert subs[..i + 1][..i] == subs[..i];
      var subAddr := SubSiteAddress(subs[i], d, port);
      siteAddrs := siteAddrs + [subAddr];
    }
    assert subs[..|subs|] == subs;
  }

  /** The site's `tls` block (lines 220-247). */
  method EmitSiteTls(acc: string, d: Domain, certsDir: string) returns (sb: string)
    ensures sb == WriteSiteTls(acc, d, certsDir)
  {
    sb := acc;
    if d.disableTls {
    } else if d.customCert != "" {
      var certPath := JoinPath(certsDir, d.customCert);
      var keyPath := JoinPath(certsDir, TrimSuffix(d.customCert, ".pem") + ".key");
      sb := sb + "\ttls " + certPath + " " + keyPath + " {\n";
      sb := EmitClientAuth(sb, d, certsDir);
      sb := sb + "\t}\n";
    } else {
      sb := sb + "\ttls internal {\n";
      sb := EmitClientAuth(sb, d, certsDir);
      sb := sb + "\t}\n";
    }
  }

  /** The `client_auth` part, written the same way in both `tls` forms
      (lines 227-234 and 238-245). */
  method EmitClientAuth(acc: string, d: Domain, certsDir: string) returns (sb: string)
    ensures sb == WriteClientAuth(acc, d, certsDir)
  {
    sb := acc;
    if d.clientAuthMode != "" {
      sb := sb + "\t\tclient_auth {\n\t\t\tmode " + d.clientAuthMode + "\n";
      if d.clientAuthTrustPool != "" {
        var trustPath := JoinPath(certsDir, d.clientAuthTrustPool);
        sb := sb + "\t\t\ttrusted_ca_cert " + trustPath + "\n";
      }
      sb := sb + "\t\t}\n";
    }
  }

  /** The access log (lines 250-257). */
  method EmitAccessLog(acc: string, d: Domain, g: General, logsDir: string) returns (sb: string)
    ensures sb == WriteAccessLog(acc, d, g, logsDir)
  {
    sb := acc;
    if d.accessLog {
      var rollSize := if g.logRollSizeMb != 0 then g.logRollSizeMb else 10;
      var rollKeep := if g.logRollKeep != 0 then g.logRollKeep else 7;
      sb := sb + "\tlog {\n";
      sb := sb + "\t\toutput file " + logsDir + "/" + d.fromDomain + ".log {\n";
      sb := sb + "\t\t\troll_size " + IntToString(rollSize) + "MiB\n";
      sb := sb + "\t\t\troll_keep " + IntToString(rollKeep) + "\n";
      sb := sb + "\t\t}\n";
      sb := sb + "\t}\n";
    }
  }

  /** The handler loop of a site (lines 301-497) with its subdomain check. */
  method EmitHandlers(acc: string, hs: seq<Handler>, did: string, t: Tables, certsDir: string) returns (sb: string)
    ensures sb == WriteHandlers(acc, hs, did, t, certsDir)
  {
    sb := acc;
    for i := 0 to |hs|
      invariant sb == WriteHandlers(acc, hs[..i], did, t, certsDir)
    {
      assert hs[..i + 1][..i] == hs[..i];
      var handler := hs[i];
      if handler.subdomain != "" {
        var isSubdomainMatch := false;
        if handler.subdomain in t.subsById && t.subsById[handler.subdomain].reverse == did {
          isSubdomainMatch := true;
        }
        if !isSubdomainMatch {
          continue;
        }
      }
      sb := EmitHandler(sb, handler, t.accessLists, t.basicAuths, t.headers, certsDir);
    }
    assert hs[..|hs|] == hs;
  }

  /** The site block up to its handlers (lines 194-298). */
  method EmitSiteHead(acc: string, d: Domain, subs: seq<Subdomain>, t: Tables,
                      g: General, logsDir: string, certsDir: string) returns (sb: string)
    ensures sb == WriteSiteHead(acc, d, subs, t, g, logsDir, certsDir)
  {
    var siteAddrs := CollectSiteAddresses(d, subs);
    sb := acc + Join(siteAddrs, ", ") + " {\n";
    sb := EmitSiteTls(sb, d, certsDir);
    sb := EmitAccessLog(sb, d, g, logsDir);
    sb := EmitAccessLists(sb, d.accesslist, t.accessLists, "\t", "@al_");
    sb := EmitBasicAuths(sb, d.basicauth, t.basicAuths, "\t");
  }

  /** One site block (lines 191-499), for an enabled domain. */
  method EmitSite(acc: string, d: Domain, subs: seq<Subdomain>, hs: seq<Handler>, t: Tables,
                  g: General, logsDir: string, certsDir: string) returns (sb: string)
    ensures sb == WriteSite(acc, d, subs, hs, t, g, logsDir, certsDir)
  {
    sb := EmitSiteHead(acc, d, subs, t, g, logsDir, certsDir);
    sb := EmitHandlers(sb, hs, d.id, t, certsDir);
    sb := sb + "}\n\n";
  }
}
