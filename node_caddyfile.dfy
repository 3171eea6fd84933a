/** `generateCaddyfile` of src/caddy.js (lines 10-504): the global options
    block, then, when the configuration is enabled, the lookup tables and one
    site block per enabled domain, in input order. */
module NodeCaddyfile {
  import opened Records
  import opened Relations
  import opened NodeGlobal
  import opened NodeSite

  /** The lookup tables built from the configuration (lines 122-159). */
  function MakeTables(cfg: Config): Tables
  {
    Tables(IndexBy(cfg.accessLists, AccessListId), IndexBy(cfg.basicAuths, BasicAuthId),
           IndexBy(cfg.headers, HeaderId), SubdomainsById(cfg.subdomains))
  }

  /** The site blocks of the domains, in order, skipping disabled ones; each
      domain's subdomains and handlers are looked up by its id in the
      grouped maps. */
  function WriteSites(out: string, ds: seq<Domain>, subsByDomain: map<string, seq<Subdomain>>,
                      handlersByDomain: map<string, seq<Handler>>, t: Tables,
                      g: General, logsDir: string, certsDir: string): string
    decreases |ds|
  {
    if ds == [] then out
    else
      var s := WriteSites(out, ds[..|ds| - 1], subsByDomain, handlersByDomain, t, g, logsDir, certsDir);
      var d := ds[|ds| - 1];
      if d.enabled then
        WriteSite(s, d, Lookup(subsByDomain, d.id), Lookup(handlersByDomain, d.id), t, g, logsDir, certsDir)
      else s
  }

  /** The generated Caddyfile: the global options block, and the site blocks
      only when the configuration is enabled. `logsDir` and `certsDir` are
      the directories the source derives from the working directory and its
      default argument. */
  function Caddyfile(cfg: Config, logsDir: string, certsDir: string): string
  {
    var s := GlobalOptions(cfg.general, cfg.layer4, logsDir);
    if !cfg.general.enabled then s
    else
      var subsById := SubdomainsById(cfg.subdomains);
      WriteSites(s, cfg.domains, SubdomainsByDomain(cfg.subdomains), HandlersByDomain(cfg.handlers, subsById),
                 MakeTables(cfg), cfg.general, logsDir, certsDir)
  }

  // ----- Reference definition -----

  /** The enabled domains, in input order. */
  function EnabledDomains(ds: seq<Domain>): (r: seq<Domain>)
    ensures forall d :: d in r ==> d in ds && d.enabled
    decreases |ds|
  {
    if ds == [] then []
    else
      var d := ds[|ds| - 1];
      EnabledDomains(ds[..|ds| - 1]) + (if d.enabled then [d] else [])
  }

  /** Reference definition of a domain's site block, read off the whole
      configuration: its addresses cover exactly the subdomains attached to
      it, and its handler blocks are exactly the handlers scoped to it. */
  function SiteBlock(out: string, d: Domain, cfg: Config, logsDir: string, certsDir: string): string
  {
    var t := MakeTables(cfg);
    var head := WriteSiteHead(out, d, AttachedSubdomains(cfg.subdomains, d.id), t, cfg.general, logsDir, certsDir);
    WriteHandlerSeq(head, ScopedHandlers(cfg.handlers, t.subsById, d.id), t, certsDir) + "}\n\n"
  }

  /** The reference site blocks of `ds`, in order, unconditionally. */
  function SiteBlocks(out: string, ds: seq<Domain>, cfg: Config, logsDir: string, certsDir: string): string
    decreases |ds|
  {
    if ds == [] then out
    else SiteBlock(SiteBlocks(out, ds[..|ds| - 1], cfg, logsDir, certsDir), ds[|ds| - 1], cfg, logsDir, certsDir)
  }

  // ----- Properties -----

  /** The site block written from the grouped maps is the reference block. */
  lemma SiteIsSiteBlock(out: string, d: Domain, cfg: Config, logsDir: string, certsDir: string)
    ensures var subsById := SubdomainsById(cfg.subdomains);
            WriteSite(out, d, Lookup(SubdomainsByDomain(cfg.subdomains), d.id),
                      Lookup(HandlersByDomain(cfg.handlers, subsById), d.id), MakeTables(cfg),
                      cfg.general, logsDir, certsDir)
            == SiteBlock(out, d, cfg, logsDir, certsDir)
  {
    var t := MakeTables(cfg);
    SubdomainsByDomainIsAttached(cfg.subdomains, d.id);
    HandlersByDomainIsOwned(cfg.handlers, t.subsById, d.id);
    var head := WriteSiteHead(out, d, AttachedSubdomains(cfg.subdomains, d.id), t, cfg.general, logsDir, certsDir);
    OwnedHandlersWritten(head, cfg.handlers, d.id, t, certsDir);
  }

  /** The domain loop writes the reference blocks of the enabled domains. */
  lemma {:induction false} SitesAreSiteBlocks(out: string, ds: seq<Domain>, cfg: Config, logsDir: string, certsDir: string)
    ensures var subsById := SubdomainsById(cfg.subdomains);
            WriteSites(out, ds, SubdomainsByDomain(cfg.subdomains), HandlersByDomain(cfg.handlers, subsById),
                       MakeTables(cfg), cfg.general, logsDir, certsDir)
            == SiteBlocks(out, EnabledDomains(ds), cfg, logsDir, certsDir)
    decreases |ds|
  {
    if ds != [] {
      var init, d := ds[..|ds| - 1], ds[|ds| - 1];
      SitesAreSiteBlocks(out, init, cfg, logsDir, certsDir);
      var e := EnabledDomains(init);
      if d.enabled {
        var subsById := SubdomainsById(cfg.subdomains);
        SiteIsSiteBlock(WriteSites(out, init, SubdomainsByDomain(cfg.subdomains), HandlersByDomain(cfg.handlers, subsById),
                                   MakeTables(cfg), cfg.general, logsDir, certsDir), d, cfg, logsDir, certsDir);
        assert EnabledDomains(ds) == e + [d];
        assert (e + [d])[..|e|] == e;
      } else {
        assert EnabledDomains(ds) == e;
      }
    }
  }

  /** An enabled configuration yields the global options block followed by
      the reference site block of every enabled domain, in input order. */
  lemma CaddyfileIsSiteBlocks(cfg: Config, logsDir: string, certsDir: string)
    requires cfg.general.enabled
    ensures Caddyfile(cfg, logsDir, certsDir)
         == SiteBlocks(GlobalOptions(cfg.general, cfg.layer4, logsDir), EnabledDomains(cfg.domains), cfg, logsDir, certsDir)
  {
    SitesAreSiteBlocks(GlobalOptions(cfg.general, cfg.layer4, logsDir), cfg.domains, cfg, logsDir, certsDir);
  }

  /** A disabled configuration yields the global options block alone:
      domains, subdomains, handlers and the records they reference make no
      difference. */
  lemma DisabledIgnoresSites(cfg: Config, logsDir: string, certsDir: string, other: Config)
    requires !cfg.general.enabled
    requires other.general == cfg.general && other.layer4 == cfg.layer4
    ensures Caddyfile(cfg, logsDir, certsDir) == Caddyfile(other, logsDir, certsDir)
    ensures Caddyfile(cfg, logsDir, certsDir) == GlobalOptions(cfg.general, cfg.layer4, logsDir)
  {
  }

  /** Disabled domains make no difference to the output. */
  lemma {:induction false} DisabledDomainsIgnored(out: string, ds: seq<Domain>, subsByDomain: map<string, seq<Subdomain>>,
                                                  handlersByDomain: map<string, seq<Handler>>, t: Tables,
                                                  g: General, logsDir: string, certsDir: string)
    ensures WriteSites(out, ds, subsByDomain, handlersByDomain, t, g, logsDir, certsDir)
         == WriteSites(out, EnabledDomains(ds), subsByDomain, handlersByDomain, t, g, logsDir, certsDir)
    decreases |ds|
  {
    if ds != [] {
      var init, d := ds[..|ds| - 1], ds[|ds| - 1];
      DisabledDomainsIgnored(out, init, subsByDomain, handlersByDomain, t, g, logsDir, certsDir);
      var e := EnabledDomains(init);
      if d.enabled {
        assert EnabledDomains(ds) == e + [d];
        WriteSitesSnoc(out, e, d, subsByDomain, handlersByDomain, t, g, logsDir, certsDir);
      } else {
        assert EnabledDomains(ds) == e;
      }
    }
  }

  /** One more domain at the end of the list adds its site block when it is
      enabled. */
  lemma WriteSitesSnoc(out: string, ds: seq<Domain>, d: Domain, subsByDomain: map<string, seq<Subdomain>>,
                       handlersByDomain: map<string, seq<Handler>>, t: Tables,
                       g: General, logsDir: string, certsDir: string)
    ensures WriteSites(out, ds + [d], subsByDomain, handlersByDomain, t, g, logsDir, certsDir)
         == if d.enabled then
              WriteSite(WriteSites(out, ds, subsByDomain, handlersByDomain, t, g, logsDir, certsDir),
                        d, Lookup(subsByDomain, d.id), Lookup(handlersByDomain, d.id), t, g, logsDir, certsDir)
            else WriteSites(out, ds, subsByDomain, handlersByDomain, t, g, logsDir, certsDir)
  {
    assert (ds + [d])[..|ds|] == ds;
  }

  // ----- The imperative generator -----

  /** The domain loop (lines 189-501). */
  method EmitSites(acc: string, ds: seq<Domain>, subdomainsByDomain: map<string, seq<Subdomain>>,
                   handlersByDomain: map<string, seq<Handler>>, t: Tables,
                   g: General, logsDir: string, certsDir: string) returns (sb: string)
    ensures sb == WriteSites(acc, ds, subdomainsByDomain, handlersByDomain, t, g, logsDir, certsDir)
  {
    sb := acc;
    for i := 0 to |ds|
      invariant sb == WriteSites(acc, ds[..i], subdomainsByDomain, handlersByDomain, t, g, logsDir, certsDir)
    {
      assert ds[..i + 1][..i] == ds[..i];
      var domain := ds[i];
      if !domain.enabled {
        continue;
      }
      var domainSubdomains := if domain.id in subdomainsByDomain then subdomainsByDomain[domain.id] else [];
      var domainHandlers := if domain.id in handlersByDomain then handlersByDomain[domain.id] else [];
      sb := EmitSite(sb, domain, domainSubdomains, domainHandlers, t, g, logsDir, certsDir);
    }
    assert ds[..|ds|] == ds;
  }

  /** `generateCaddyfile`: the options block, the early return for a
      disabled configuration, the lookup tables, and the domain loop. */
  method GenerateCaddyfile(cfg: Config, logsDir: string, certsDir: string) returns (sb: string)
    ensures sb == Caddyfile(cfg, logsDir, certsDir)
  {
    sb := EmitGlobalOptions(cfg.general, cfg.layer4, logsDir);
    if !cfg.general.enabled {
      return;
    }
    var accessLists := BuildIndex(cfg.accessLists, AccessListId);
    var basicAuths := BuildIndex(cfg.basicAuths, BasicAuthId);
    var headersMap := BuildIndex(cfg.headers, HeaderId);
    var subdomainsByDomain, subdomainsById := GroupSubdomains(cfg.subdomains);
    var handlersByDomain := GroupHandlers(cfg.handlers, subdomainsById);
    var t := Tables(accessLists, basicAuths, headersMap, subdomainsById);
    sb := EmitSites(sb, cfg.domains, subdomainsByDomain, handlersByDomain, t, cfg.general, logsDir, certsDir);
  }
}
