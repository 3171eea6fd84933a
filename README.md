# Caddy configuration generator and request gating, in Dafny

This project models the core of a small Caddy reverse-proxy manager. That
core is the **Caddyfile generator**: a deterministic compiler from a flat,
id-linked configuration snapshot to Caddy's tab-indented, brace-delimited
configuration text. The snapshot holds general settings, domains,
subdomains, path handlers, access lists, basic-auth users, header rules and
Layer4 routes. Two independent implementations exist, and both are modelled
over one shared record model (`Records`):

- `generateCaddyfile` in `src/caddy.js` is the full-featured one. It is
  modelled in modules `NodeGlobal`, `NodeAccess`, `NodeHandler`, `NodeSite`
  and `NodeCaddyfile`, together with its helper `formatDuration`
  (`Duration`).
- `generateCaddyfile` in `main.go` is an older one with fewer features,
  modelled in module `GoCaddyfile`.

Both generators grow a string accumulator step by step across nested loops
with `continue`. Each is modelled as imperative Dafny: `Emit…` methods whose
`sb := sb + …` appends follow the source line by line, with loop invariants.
Each method is proved equal to a writer function `Write…(out, …)`, which is
`out` followed by the text that section appends. Lemmas about the writers
state what the output contains and when. They are then connected to
independent reference definitions:

- `SiteBlock`: a domain's site block read off the whole configuration.
- `ScopedHandlers`: the handlers that belong to a domain.
- `UpstreamList`: the upstream list read from the front.

For the Go generator, lemmas relate it to the JavaScript one.

The lookup tables (`accessLists`, `subdomainsByDomain`, `handlersByDomain`,
…) that the generators fill in place are built by loops (`Relations`). The
loops are proved to build the maps `IndexBy`, `SubdomainsByDomain` and
`HandlersByDomain`. Those maps are in turn characterised by which records
they hold.

The second, smaller part is the request gating (`Auth`):

- the CSRF rule of `src/auth.js` and that of `main.go`;
- the session check of `src/auth.js`. The session table is a `class` whose
  `expiresAt` map is updated in place, and the current time is a parameter.

Shared string helpers are in `Text`. Site addresses, upstream lists and
certificate file names, which both generators build the same way, are in
`Addresses`.

## Model

| member | source | states |
|---|---|---|
| Duration.TrimStart | src/caddy.js:5 | the result is a suffix of the input and does not start with JavaScript white space |
| Duration.TrimEnd | src/caddy.js:5 | the result is a prefix of the input and does not end with JavaScript white space |
| Duration.Trim | src/caddy.js:5 | the result is a contiguous slice of the input with no white space at either end |
| Duration.TrimStartCutsSpace | src/caddy.js:5 | every character `trim` removes at the front is white space |
| Duration.TrimEndCutsSpace | src/caddy.js:5 | every character `trim` removes at the end is white space |
| Duration.FormatDuration | src/caddy.js:3-8 | an empty value is returned unchanged |
| Duration.FormatDurationSpec | src/caddy.js:3-8 | the result is trimmed and never a bare digit string; a trimmed all-digit value gets `s` appended; anything else is returned trimmed and otherwise unchanged |
| Duration.TrimStartOfTrimmed | src/caddy.js:5 | trimming the front of a string that starts with a non-space changes nothing |
| Duration.TrimEndOfTrimmed | src/caddy.js:5 | trimming the end of a string that ends with a non-space changes nothing |
| Duration.TrimFixpoint | src/caddy.js:5 | `trim` of a trimmed string is the identity |
| Duration.FormatDurationIdempotent | src/caddy.js:3-8 | formatting a formatted duration changes nothing |
| Duration.FormatDurationBareCount | src/caddy.js:6 | `30` becomes `30s` |
| Duration.FormatDurationPadded | src/caddy.js:5-6 | ` 30 ` becomes `30s` |
| Duration.FormatDurationWithUnit | src/caddy.js:7 | `30s` and `5m` are kept as given |
| Text.TrimSuffix | main.go:275 | a present suffix is removed exactly once; otherwise the string is unchanged |
| Text.JoinShape | src/caddy.js:217 | a joined list is empty for no elements; otherwise it starts with the first element, ends with the last, and its length is the elements' total plus one separator between each pair |
| Text.NatToStringDecimal | src/caddy.js:98 | a count is written as decimal digits only, with no leading zero, denoting the number |
| Text.IntToStringDecimal | src/caddy.js:98 | an integer is written with a leading `-` exactly when it is negative, followed by the decimal digits of its magnitude |
| Relations.IndexByContents | src/caddy.js:122-142 | an id is a key exactly when some record has it, and it maps to the last such record |
| Relations.IndexByKeys | src/caddy.js:122-142 | an id is a key exactly when some record carries it |
| Relations.IndexByLast | src/caddy.js:122-142 | a key maps to a record carrying it, and no later record carries the same id |
| Relations.IndexBySnoc | src/caddy.js:125-127 | adding one record updates exactly that record's key |
| Relations.BuildIndex | src/caddy.js:122-142 | the id-keyed table loop builds `IndexBy` of the records |
| Relations.EnabledSubdomains | src/caddy.js:149 | only enabled subdomains of the input are kept |
| Relations.AttachedSubdomains | src/caddy.js:148-157 | every subdomain listed for a domain id is enabled, comes from the input, and names that non-empty id as its parent |
| Relations.SubdomainsByDomainIsAttached | src/caddy.js:144-159 | the list the grouped map holds for a domain id is exactly that domain's attached subdomains, in input order |
| Relations.GroupSubdomains | src/caddy.js:144-159 | the grouping loop builds both subdomain maps, by parent id and by own id |
| Relations.OwnedHandlers | src/caddy.js:161-187 | every handler grouped under a domain id is enabled, comes from the input, and resolves to that non-empty id through `reverse` or its subdomain |
| Relations.HandlersByDomainIsOwned | src/caddy.js:161-187 | the list the grouped map holds for a domain id is exactly that domain's owned handlers, in input order |
| Relations.GroupHandlers | src/caddy.js:161-187 | the handler-grouping loop builds the map of owned handlers |
| Addresses.EffectivePort | src/caddy.js:197-200 | the site port is `fromPort` when set, else 80 without TLS and 443 with TLS |
| Addresses.WithScheme | src/caddy.js:203-206 | an address with a scheme is kept; any other gets the scheme the TLS setting calls for |
| Addresses.WithPort | src/caddy.js:206 | appending `:port` to a schemed address keeps the scheme and ends the address in `:port` |
| Addresses.BaseAddress | src/caddy.js:202-207 | the domain's address has a scheme and ends in `:port` |
| Addresses.SubdomainAddressAsWritten | src/caddy.js:209-214 | the subdomain address as the source builds it has a scheme and ends in `:port` |
| Addresses.HostOf | src/caddy.js:203-206 | the domain's scheme followed by its host is the address with a scheme |
| Addresses.SubdomainAddress | src/caddy.js:209-214 | the corrected subdomain address has a scheme and ends in `:port` |
| Addresses.BaseAddressParts | src/caddy.js:202-207 | the base address is scheme, host and port |
| Addresses.SubdomainAddressParts | src/caddy.js:209-214 | the corrected subdomain address is the parent's scheme, then `label.host`, then the port |
| Addresses.SubdomainAddressAgrees | src/caddy.js:209-214 | the corrected address is the one the source builds whenever the parent is entered without a scheme |
| Addresses.SchemedParentDoubled | src/caddy.js:210-213 | with a parent entered as `https://host`, the address as built is `https://label.https://host:port` |
| Addresses.SchemedParentDiffers | src/caddy.js:210-213 | for such a parent the address as built is not the corrected one |
| Addresses.UnschemedParentAddresses | src/caddy.js:202-214 | for a parent and joined name without a scheme, the base address is the TLS scheme, the parent and the port, and the subdomain address the same scheme, `label.parent` and the port |
| Addresses.AsWrittenUnschemed | src/caddy.js:210-214 | a label under a parent whose joined name has no scheme gets the scheme the TLS setting calls for, then the port |
| Addresses.SchemedParentFixed | src/caddy.js:210-213 | for the same parent the corrected address is `https://label.host:port` |
| Addresses.SchemedParentCounterexample | main.go:256-263 | `api` under `https://example.com` yields `https://api.https://example.com:443` as written |
| Addresses.SchemedParentCorrected | main.go:256-263 | the corrected address for the same inputs is `https://api.example.com:443` |
| Addresses.WriteUpstreams | src/caddy.js:394-398 | the upstream loop only appends, and with no upstreams appends nothing |
| Addresses.WriteUpstreamsIsList | src/caddy.js:394-398 | the loop appends exactly the upstream list: every target once, in order, each with the port |
| Addresses.UpstreamListSnoc | src/caddy.js:394-398 | one more target extends the list by ` target:port` |
| Addresses.AppendUpstreams | main.go:182-185 | the upstream loop appends the upstream list |
| Addresses.JoinPath | src/caddy.js:224 | a joined path ends in `/name` |
| Addresses.KeyFileName | src/caddy.js:225 | the key file replaces a trailing `.pem` with `.key`, or else appends `.key`; it always ends in `.key` |
| NodeGlobal.RollSize | src/caddy.js:21 | the log roll size is the configured size, or 10 when unset |
| NodeGlobal.RollKeep | src/caddy.js:22 | the log roll count is the configured count, or 7 when unset |
| NodeGlobal.ListenPort | src/caddy.js:68-69 | a route listens on `fromPort`, or on 443 when unset |
| NodeGlobal.GlobalOptions | src/caddy.js:14-116 | the options block always ends with `}` and a blank line; its opening and its parts are stated by `GlobalOptionsParts` and the `Options…Inserted` lemmas |
| NodeGlobal.EnabledRoutes | src/caddy.js:66 | only enabled routes of the input are kept |
| NodeGlobal.DisabledRoutesSkipped | src/caddy.js:65-66 | the route loop writes exactly what it writes for the enabled routes alone |
| NodeGlobal.PortsGate | src/caddy.js:15-20 | with no port set nothing is written; `http_port` comes first; setting either port inserts exactly its line and changes nothing else; the lines do not depend on the text before them |
| NodeGlobal.AcmeGate | src/caddy.js:35-41 | with neither set nothing is written; setting `auto_https` or the e-mail inserts exactly its line |
| NodeGlobal.GlobalLogAfter | src/caddy.js:25-33 | without a level nothing is written; the log block does not depend on the text before it |
| NodeGlobal.GlobalLogFrame | src/caddy.js:25-33 | with a level the block opens with `log {` and the rolling file `caddy-global.log` in the logs directory, and closes with the level line and the brace |
| NodeGlobal.GlobalLogDefaults | src/caddy.js:21-31 | with a level and no roll settings the block is written in full with `roll_size 10MiB` and `roll_keep 7` |
| NodeGlobal.TimeoutLinesInserted | src/caddy.js:53-56 | with no timeout nothing is written; setting any one timeout inserts exactly its line, the value passed through `formatDuration` |
| NodeGlobal.TimeoutLinesAfter | src/caddy.js:53-56 | the timeout lines do not depend on the text before them |
| NodeGlobal.TimeoutsAfter | src/caddy.js:51-58 | with no timeout nothing is written; the `timeouts` block does not depend on the text before it |
| NodeGlobal.TimeoutsFrame | src/caddy.js:51-58 | with a timeout the block opens with `timeouts {` and closes with its brace |
| NodeGlobal.ServersAfter | src/caddy.js:43-60 | with no protocol, credential logging or timeout nothing is written; the `servers` block does not depend on the text before it |
| NodeGlobal.ServersParts | src/caddy.js:43-60 | the `servers` block is `servers {`, the optional protocols and `log_credentials` lines in that order, the `timeouts` block and the closing brace |
| NodeGlobal.ServersFrame | src/caddy.js:43-60 | a `servers` block opens with `servers {` and closes with its brace, right after the `timeouts` block's brace when a timeout is set |
| NodeGlobal.ServersProtocolsFirst | src/caddy.js:44-47 | with protocols set, the protocols line comes right after `servers {` |
| NodeGlobal.ServersCredentials | src/caddy.js:48-50 | when the block is written for protocols or a timeout, turning on credential logging inserts exactly the `log_credentials` line |
| NodeGlobal.TimeoutsBareCount | src/caddy.js:56 | an idle timeout of `30` is written `idle 30s` |
| NodeGlobal.ProxyProtocolGate | src/caddy.js:88-90 | `proxy_protocol` is written only for `v1` and `v2` |
| NodeGlobal.MatchGate | src/caddy.js:72-79 | nothing for an empty or `any` matcher; otherwise exactly the `match` block with the matcher, followed by the route's domains joined by spaces when there are any |
| NodeGlobal.ProxyAfter | src/caddy.js:82-101 | nothing for a route without targets; the `proxy` block does not depend on the text before it |
| NodeGlobal.ProxyBodyAfter | src/caddy.js:88-99 | the lines inside the `proxy` block do not depend on the text before them |
| NodeGlobal.ProxyFrame | src/caddy.js:82-101 | with targets the block opens with `proxy`, the upstream list and ` {`, and closes with its brace |
| NodeGlobal.RouteTlsAfter | src/caddy.js:103-110 | the TLS lines of a route do not depend on the text before them |
| NodeGlobal.RouteAfter | src/caddy.js:65-113 | a disabled route writes nothing; a route block does not depend on the text before it |
| NodeGlobal.RouteFrame | src/caddy.js:68-112 | an enabled route's block opens with `:port {` on its listener port and closes with its brace |
| NodeGlobal.RouteParts | src/caddy.js:71-112 | an enabled route's block is, in this order, the `:port {` line, the match block, the proxy block, the TLS lines and the closing brace |
| NodeGlobal.ProxyBodyLines | src/caddy.js:88-99 | inside the proxy block, `proxy_protocol` (for `v1`/`v2` only), `lb_policy`, `passive_health_fail_duration` (normalised by `formatDuration`) and `passive_health_max_fails` are each inserted exactly when set, and nothing is written when none is |
| NodeGlobal.ProxyLines | src/caddy.js:82-101 | a proxy block with none of its optional lines set is exactly `proxy`, the upstream list, ` {` and the closing brace; `proxy_protocol` and `lb_policy` each insert exactly their line into the block |
| NodeGlobal.ProxyPassiveLines | src/caddy.js:94-99 | `passive_health_fail_duration` and `passive_health_max_fails` each insert exactly their line into the proxy block |
| NodeGlobal.RouteTlsLines | src/caddy.js:103-110 | `tls` comes first when the route terminates TLS; originating `tls` appends `tls_client`, `tls_insecure_skip_verify` appends the `tls_client` block with `insecure_skip_verify`, and any other value appends nothing |
| NodeGlobal.RoutesAfter | src/caddy.js:65-113 | the route blocks do not depend on the text before them |
| NodeGlobal.Layer4Gate | src/caddy.js:63-115 | nothing unless Layer4 is enabled and the route list is not empty; otherwise a block opened by `layer4 {` and closed by its brace |
| NodeGlobal.GlobalOptionsParts | src/caddy.js:14-116 | the options block is `{`, the ports, the log block, the ACME lines, the `servers` block and the `layer4` block in that order, then `}` and a blank line |
| NodeGlobal.PartsReadOwnSettings | src/caddy.js:15-41 | the port, log, ACME and `layer4` parts each read only their own settings |
| NodeGlobal.ServersReadOwnSettings | src/caddy.js:43-60 | the `servers` block reads only the protocols, credential logging and timeout settings |
| NodeGlobal.OptionsPortInserted | src/caddy.js:15-20 | in the whole options block, setting a port inserts exactly its line and changes nothing else |
| NodeGlobal.OptionsAcmeInserted | src/caddy.js:35-41 | in the whole options block, setting `auto_https` or the e-mail inserts exactly its line |
| NodeGlobal.OptionsLogInserted | src/caddy.js:25-33 | in the whole options block, setting a level inserts exactly the log block |
| NodeGlobal.OptionsServersInserted | src/caddy.js:43-60 | in the whole options block, the protocol, credential and timeout settings insert exactly the `servers` block |
| NodeGlobal.OptionsLayer4Inserted | src/caddy.js:63-115 | in the whole options block, the routes insert exactly the `layer4` block |
| NodeGlobal.EmptyOptions | src/caddy.js:14-116 | with nothing set the options block is `{`, `}` and a blank line |
| NodeGlobal.AllRoutesDisabled | src/caddy.js:63-115 | with Layer4 on and every route disabled, an empty `layer4 { }` block is still written |
| NodeGlobal.NoneEnabled | src/caddy.js:66 | no route survives when all are disabled |
| NodeGlobal.EmitMatch | src/caddy.js:72-79 | the match part appends `WriteMatch` |
| NodeGlobal.EmitProxy | src/caddy.js:82-101 | the proxy part appends `WriteProxy`, whose frame and lines `ProxyFrame`, `ProxyLines`, `ProxyPassiveLines` and `ProxyBodyLines` state |
| NodeGlobal.EmitRoute | src/caddy.js:67-112 | one route appends `WriteRoute`, whose part order `RouteParts` and whose TLS lines `RouteTlsLines` state |
| NodeGlobal.EmitLayer4 | src/caddy.js:63-115 | the route loop with `continue` appends `WriteLayer4` |
| NodeGlobal.EmitServers | src/caddy.js:43-60 | the servers part appends `WriteServers` |
| NodeGlobal.EmitGlobalLog | src/caddy.js:21-33 | the log part appends `WriteGlobalLog` |
| NodeGlobal.EmitGlobalOptions | src/caddy.js:14-116 | the options part yields `GlobalOptions` |
| NodeAccess.MatcherType | src/caddy.js:265 | the matcher is `remote_ip` exactly when requested, else `client_ip` |
| NodeAccess.DenyCommand | src/caddy.js:271-276 | `abort` without a response code, `respond code` with one, and `respond "message" code` with both |
| NodeAccess.DenyPolarity | src/caddy.js:278-282 | an inverted list denies matching clients; a normal list denies clients that do not match (`not`) |
| NodeAccess.OtherMatcherIsClientIp | src/caddy.js:265 | every matcher other than `remote_ip` is written as `client_ip` |
| NodeAccess.EmptyListSkipped | src/caddy.js:263 | a list without addresses writes nothing |
| NodeAccess.UnresolvedIdsSkipped | src/caddy.js:261-263 | ids with no matching list make no difference |
| NodeAccess.Resolvable | src/caddy.js:261-263 | only ids that are present and known are kept |
| NodeAccess.EmitAccessList | src/caddy.js:262-284 | one list appends `WriteAccessList` |
| NodeAccess.EmitAccessLists | src/caddy.js:259-286 | the site's list loop appends `WriteAccessLists` |
| NodeAccess.EmitBasicAuths | src/caddy.js:289-298 | the basic-auth loop appends `WriteBasicAuths` |
| NodeHandler.MatcherSuffix | src/caddy.js:315-322 | no path gives no matcher; `handle_path` gets ` path/*`; otherwise ` path` |
| NodeHandler.Directive | src/caddy.js:324 | the directive defaults to `reverse_proxy` |
| NodeHandler.RedirTarget | src/caddy.js:490 | the redirect target is the first upstream, or empty |
| NodeHandler.RedirStatus | src/caddy.js:491 | the redirect status defaults to 301 |
| NodeHandler.NoHeaderLinesForProxy | src/caddy.js:374-389 | a proxy handler writes no plain `header` lines |
| NodeHandler.DefaultDirectiveIsProxy | src/caddy.js:324 | a handler without a directive is written exactly as a `reverse_proxy` handler, with the proxy block after the auth lines |
| NodeHandler.ProxyHeaderDirection | src/caddy.js:405-420 | any direction other than `header_down` is written as `header_up` |
| NodeHandler.EmptyValueDeletes | src/caddy.js:407-417 | a header with an empty value is written as a delete (`-name`) in its direction |
| NodeHandler.HttpTransportNeverEmpty | src/caddy.js:436-461 | outside NTLM, the `transport http` block is written only when it has content, and then it is more than the bare braces |
| NodeHandler.NtlmTlsOnlyWithHttpTls | src/caddy.js:426-435 | the NTLM transport carries `tls` lines exactly when upstream TLS is on |
| NodeHandler.RedirectLine | src/caddy.js:489-493 | a redirect writes target and status, defaulting to `301` |
| NodeHandler.EmitHeaderLines | src/caddy.js:374-389 | the pre-proxy header loop appends `WriteHeaderLines` |
| NodeHandler.EmitProxyHeaders | src/caddy.js:402-423 | the proxy header loop appends `WriteProxyHeaders` |
| NodeHandler.EmitTransport | src/caddy.js:426-462 | the transport part appends `WriteTransport` |
| NodeHandler.LoadBalancingLines | src/caddy.js:465-468 | with nothing set nothing is written; setting the policy, retries, try duration or try interval inserts exactly its line, durations passed through `formatDuration` |
| NodeHandler.HealthProbeLines | src/caddy.js:471-474 | with nothing set nothing is written; setting the URI, port, interval or timeout inserts exactly its line, durations passed through `formatDuration` |
| NodeHandler.HealthExpectLines | src/caddy.js:475-479 | with nothing set nothing is written; setting the status, the body (quoted) or following redirects inserts exactly its line |
| NodeHandler.HealthCountLines | src/caddy.js:477-478 | setting the pass or fail count inserts exactly its line |
| NodeHandler.PassiveHealthLines | src/caddy.js:482-486 | with nothing set nothing is written; setting the fail duration, unhealthy status or unhealthy latency inserts exactly its line, durations passed through `formatDuration` |
| NodeHandler.PassiveCountLines | src/caddy.js:483-486 | setting the maximum failures or the unhealthy request count inserts exactly its line |
| NodeHandler.ProxyIgnoresDirective | src/caddy.js:392-488 | the `reverse_proxy` block does not depend on the handler's directive field |
| NodeHandler.EmitLoadBalancing | src/caddy.js:465-468 | the load-balancing lines append `WriteLoadBalancing`, whose content `LoadBalancingLines` states |
| NodeHandler.EmitHealthProbe | src/caddy.js:471-474 | the health-probe lines append `WriteHealthProbe`, whose content `HealthProbeLines` states |
| NodeHandler.EmitHealthExpect | src/caddy.js:475-479 | the health-expectation lines append `WriteHealthExpect`, whose content `HealthExpectLines` and `HealthCountLines` state |
| NodeHandler.EmitPassiveHealth | src/caddy.js:482-486 | the passive-health lines append `WritePassiveHealth`, whose content `PassiveHealthLines` and `PassiveCountLines` state |
| NodeHandler.EmitReverseProxy | src/caddy.js:392-488 | the `reverse_proxy` block appends `WriteReverseProxy` |
| NodeHandler.EmitDirective | src/caddy.js:392-493 | the directive part appends `WriteDirective` |
| NodeHandler.EmitHandleOpen | src/caddy.js:315-330 | the opening line appends `WriteHandleOpen` |
| NodeHandler.EmitHandler | src/caddy.js:314-495 | one handler block appends `WriteHandler` |
| NodeSite.SiteAddrs | src/caddy.js:197-215 | the address list has the base address first and then, in order, one address per subdomain, built as the source builds it (`SubdomainAddressAsWritten`) |
| NodeSite.CorrectedSiteAddrs | src/caddy.js:197-215 | the corrected list has the base address first and then the corrected address of each subdomain, in order |
| NodeSite.CorrectedSiteAddrsAgree | src/caddy.js:209-214 | for a parent entered without a scheme, the corrected list is the list the source builds |
| NodeSite.ScopedHandlers | src/caddy.js:301-312 | every handler scoped to a domain comes from the input and is enabled |
| NodeSite.SiteAddrsShape | src/caddy.js:197-215 | every site address has a scheme and ends in the site's port |
| NodeSite.SubdomainSharesSchemeAndPort | src/caddy.js:202-214 | when neither the parent nor `label.parent` carries a scheme, the base address is the TLS scheme, the host and the port, and each subdomain address is the same scheme, `label.host` and the same port |
| NodeSite.TlsWithoutClientAuth | src/caddy.js:220-247 | without client auth, a plain site gets no `tls`; a custom certificate gets its certificate and key paths; otherwise `tls internal` |
| NodeSite.PlainHttpHasNoTls | src/caddy.js:199-206 | a site with TLS disabled gets no `tls` block, port 80 by default and an `http://` address unless the domain was entered with `https://` |
| NodeSite.AccessLogGate | src/caddy.js:250-257 | the access log block appears exactly when access logging is on |
| NodeSite.ScopedHandlersMembers | src/caddy.js:161-187 | a handler is written under a domain exactly when it is enabled, resolves to that domain and passes the subdomain check |
| NodeSite.HandlerPlacedOnce | src/caddy.js:161-187 | a handler is written under its domain once for each time it occurs in the handler list, a repeated entry again, and under no other domain |
| NodeSite.MismatchedSubdomainDropped | src/caddy.js:301-312 | a handler naming one domain and a subdomain of another is written under no domain |
| NodeSite.OwnedHandlersWritten | src/caddy.js:301-312 | the handler loop with its subdomain check writes exactly the scoped handlers |
| NodeSite.BaseSiteAddress | src/caddy.js:197-207 | the port defaults to 80 or 443 by the TLS setting, and the domain's address is `BaseAddress` on that port |
| NodeSite.SubSiteAddress | src/caddy.js:209-214 | one subdomain's address is built as the source builds it: `label.parent`, the TLS scheme unless that already has one, then the port |
| NodeSite.CollectSiteAddresses | src/caddy.js:197-215 | the address loop builds `SiteAddrs` |
| NodeSite.EmitSiteTls | src/caddy.js:220-247 | the TLS part appends `WriteSiteTls` |
| NodeSite.ClientAuthGate | src/caddy.js:227-234 | nothing without a mode; with one, a `client_auth` block opening with the mode line and closed by its brace; without a trust pool exactly that; with one, exactly the `trusted_ca_cert` line more, its path under the certificate directory |
| NodeSite.EmitClientAuth | src/caddy.js:227-234 | the `client_auth` block appends `WriteClientAuth`, whose content `ClientAuthGate` states |
| NodeSite.EmitAccessLog | src/caddy.js:250-257 | the access log part appends `WriteAccessLog` |
| NodeSite.EmitHandlers | src/caddy.js:301-497 | the handler loop with `continue` appends `WriteHandlers` |
| NodeSite.EmitSiteHead | src/caddy.js:194-298 | the site head appends `WriteSiteHead` |
| NodeSite.EmitSite | src/caddy.js:191-499 | one site block appends `WriteSite` |
| NodeCaddyfile.EnabledDomains | src/caddy.js:191 | only enabled domains of the input are kept |
| NodeCaddyfile.SiteIsSiteBlock | src/caddy.js:189-499 | the block written from the grouped maps equals the reference site block |
| NodeCaddyfile.SitesAreSiteBlocks | src/caddy.js:189-501 | the domain loop writes the reference blocks of the enabled domains, in input order |
| NodeCaddyfile.CaddyfileIsSiteBlocks | src/caddy.js:10-504 | an enabled configuration yields the options block and then the reference block of every enabled domain |
| NodeCaddyfile.DisabledIgnoresSites | src/caddy.js:118-120 | a disabled configuration yields the options block alone, whatever the domains and records |
| NodeCaddyfile.DisabledDomainsIgnored | src/caddy.js:191 | disabled domains make no difference to the output |
| NodeCaddyfile.EmitSites | src/caddy.js:189-501 | the domain loop appends `WriteSites` |
| NodeCaddyfile.GenerateCaddyfile | src/caddy.js:10-504 | the generator returns `Caddyfile` |
| GoCaddyfile.GoGlobalBlock | main.go:145-204 | the `log` block is absent without a level; a disabled configuration yields only the options block, ending in `}` and a blank line |
| GoCaddyfile.GoDisabledRoutesSkipped | main.go:161-164 | the route loop writes exactly what it writes for the enabled routes alone |
| GoCaddyfile.GoVisibleRoute | main.go:165-196 | a route with the settings main.go does not write (load-balancing policy, passive health, TLS origination) cleared is a route that sets none of them, and equals the route exactly when it set none |
| GoCaddyfile.GoVisibleRoutes | main.go:160-198 | every route of the list, in order, as main.go sees it |
| GoCaddyfile.GoLogGate | main.go:152-156 | the `log` block is absent without a level, else exactly `log {`, the `level` line and its brace, independently of the text before it |
| GoCaddyfile.GoProxyAgrees | main.go:181-191 | main.go's proxy block is the JavaScript one for the route as main.go sees it |
| GoCaddyfile.GoRouteAgrees | main.go:165-196 | main.go's route block is the JavaScript one for the route as main.go sees it, and the same block when the route sets nothing main.go leaves unwritten |
| GoCaddyfile.GoRoutesAgree | main.go:160-198 | the same for the whole route list, so the JavaScript route lemmas (`RouteParts`, `RouteFrame`, `MatchGate`, `ProxyFrame`) hold for main.go's routes |
| GoCaddyfile.GoLayer4Agrees | main.go:158-199 | main.go's `layer4` block is the JavaScript one for the routes as main.go sees them, so it is gated and framed as `Layer4Gate` states |
| GoCaddyfile.GoGlobalOptionsParts | main.go:145-200 | for every configuration, the options block is `{`, the ports, the `log` block and the `layer4` block, in that order, then `}` and a blank line |
| GoCaddyfile.GoDomainSubdomainsMembers | main.go:227-232 | a subdomain belongs to a domain exactly when it is enabled and names that domain id |
| GoCaddyfile.GoScopingIff | main.go:313-330 | a handler is written under a domain exactly when it is enabled and either names no subdomain and that domain, or names an enabled subdomain of that domain |
| GoCaddyfile.ScopingDiffers | main.go:313-330 | a handler naming domain `a` and a subdomain of domain `b` is written under `b` by main.go and under no domain by src/caddy.js |
| GoCaddyfile.GoAccessListAgrees | main.go:287-301 | the Go access list is the JavaScript one for `remote_ip` without a response code |
| GoCaddyfile.GoTransportGate | main.go:432-442 | outside NTLM, `transport http { tls }` is written exactly when upstream TLS is on; NTLM carries `tls` only with upstream TLS |
| GoCaddyfile.GoTransportAgrees | main.go:432-442 | when only upstream TLS or NTLM is set, both generators write the same transport |
| GoCaddyfile.GoLoadBalancingLines | main.go:445-456 | with nothing set nothing is written; setting the policy, try duration or try interval inserts exactly its line, the durations as given |
| GoCaddyfile.GoRetriesOnlyPositive | main.go:448-450 | a positive retry count inserts exactly the `lb_retries` line; zero or a negative count writes nothing |
| GoCaddyfile.GoHealthLines | main.go:459-470 | with nothing set nothing is written; setting the URI, port, interval or timeout inserts exactly its line, the durations as given |
| GoCaddyfile.GoLoadBalancingAgrees | main.go:445-456 | for a non-negative retry count and try durations already in `formatDuration` form, both generators write the same load-balancing lines |
| GoCaddyfile.GoHealthAgrees | main.go:459-470 | for interval and timeout already in `formatDuration` form, both generators write the same health-probe lines |
| GoCaddyfile.GoRedirectLine | main.go:473-479 | a redirect names the first upstream (or nothing) and carries no status |
| GoCaddyfile.GoCustomCertLine | main.go:268-278 | nothing with TLS disabled; with a custom certificate, `tls` with the certificate and the key (a trailing `.pem` replaced by `.key`) under `./certs/`; otherwise `tls internal` |
| GoCaddyfile.GenTestNtlmProxy | gen_test.go:8-37 | an NTLM proxy to `localhost:9090` writes `reverse_proxy localhost:9090` and `transport http_ntlm` |
| GoCaddyfile.GenTestLayer4Route | gen_test.go:39-60 | a route on port 443 to `10.0.0.2:443` writes `:443 {` and `proxy 10.0.0.2:443` |
| GoCaddyfile.GoEmitRoute | main.go:165-196 | one route appends `GoWriteRoute`, which `GoRouteAgrees` ties to the JavaScript route block |
| GoCaddyfile.GoEmitGlobalOptions | main.go:145-200 | the options part yields `GoGlobalOptions`, whose parts, `log` gate and `layer4` gate `GoGlobalOptionsParts`, `GoLogGate` and `GoLayer4Agrees` state |
| GoCaddyfile.GoCollectSubdomains | main.go:227-232 | the subdomain scan builds `GoDomainSubdomains` |
| GoCaddyfile.GoEmitTls | main.go:270-279 | the TLS part appends `GoWriteTls`, whose three cases `GoCustomCertLine` states |
| GoCaddyfile.GoEmitAccessLists | main.go:287-301 | the access-list loop appends `GoWriteAccessLists` |
| GoCaddyfile.GoEmitHeaderLines | main.go:378-397 | the header loop appends the same text as the JavaScript one |
| GoCaddyfile.GoEmitTransport | main.go:432-442 | the transport part appends `GoWriteTransport` |
| GoCaddyfile.GoEmitLoadBalancing | main.go:445-456 | the load-balancing lines append `GoWriteLoadBalancing`, whose content `GoLoadBalancingLines` and `GoRetriesOnlyPositive` state |
| GoCaddyfile.GoEmitHealth | main.go:459-470 | the health lines append `GoWriteHealth`, whose content `GoHealthLines` states |
| GoCaddyfile.GoEmitDirective | main.go:400-479 | the directive part appends `GoWriteDirective` |
| GoCaddyfile.GoEmitHandler | main.go:332-481 | one handler block appends `GoWriteHandler` |
| GoCaddyfile.GoSubdomainMatch | main.go:319-329 | the scan finds a match exactly when some subdomain of the domain has the handler's subdomain id |
| GoCaddyfile.GoEmitHandlers | main.go:313-482 | the handler loop with `continue` appends `GoWriteHandlers` |
| GoCaddyfile.GoEmitSiteHead | main.go:226-310 | the site head appends `GoWriteSiteHead` |
| GoCaddyfile.GoEmitSites | main.go:221-485 | the domain loop appends `GoWriteSites` |
| GoCaddyfile.GoGenerateCaddyfile | main.go:141-488 | the generator returns `GoCaddyfile` |
| Auth.CsrfHeaderPasses | src/auth.js:44 | a request carrying `X-Requested-With: XMLHttpRequest` always passes, under both rules |
| Auth.CsrfRejectsIff | src/auth.js:41-49 | a request is rejected exactly when its method is not GET, HEAD or OPTIONS, its path starts with `/api/`, and the header is not `XMLHttpRequest` |
| Auth.GoCsrfStricter | main.go:490-501 | whatever main.go rejects, src/auth.js rejects too |
| Auth.CsrfRulesAgree | main.go:493-494 | the two rules agree on GET, HEAD, OPTIONS, POST, PUT and DELETE |
| Auth.CsrfRulesDifferOnPatch | main.go:493-494 | a PATCH to `/api/` without the header is rejected by src/auth.js and passed by main.go |
| Auth.Decide | src/auth.js:8-39 | login paths and valid sessions pass; otherwise 401 under `/api/` and a redirect to `/login.html` elsewhere |
| Auth.Expire | src/auth.js:21-27 | only the checked token's row is dropped, and only when it has expired; every other row is kept with its expiry |
| Auth.ExpireKeepsValid | src/auth.js:21-27 | no token's validity changes by the check; a valid session leaves the table unchanged |
| Auth.ExpireIdempotent | src/auth.js:25 | a second check of the same token changes nothing more; an expired row is gone |
| Auth.ValidityMonotone | src/auth.js:22 | a session valid now was valid earlier; one rejected now is rejected later |
| Auth.SessionTable.Authenticate | src/auth.js:8-39 | the middleware answers `Decide` on the old table and leaves the table as `AfterRequest` |
| Auth.RejectedStaysRejected | src/auth.js:21-36 | after a request is turned away, the same token is turned away again at any later time |

## Left out

- Paths: `path.join` normalisation and the replacement of backslashes are left out. `JoinPath` joins with `/`, assuming a directory without a trailing separator and a plain file name.
- Directories: `certsDir` and the logs directory (derived from the process working directory) are parameters of the JavaScript model.
- Numbers: `parseInt` is left out. Numeric fields are modelled as already-parsed integers, with 0 standing for an unset (falsy) value. `IntToString` stands for JavaScript's and Go's decimal formatting.
- Absent values: an absent or `undefined` string field, cookie or header is the empty string. For the checks here this gives the same truthiness as the source. Where such a value is written into the output, the text differs:
  - an absent header name is written by JavaScript as `header -undefined` or `header_up undefined …` (src/caddy.js:382, 384, 410-418), and by the model without the name;
  - an absent subdomain label gives `undefined.<parent>` in JavaScript (src/caddy.js:210), and `.<parent>` in the model;
  - an absent `domain.fromDomain` makes src/caddy.js:204 throw a `TypeError`, where the model writes `https://:443`.
- Addresses.WriteUpstreams, NodeGlobal.WriteProxy: a route's `toPort` is interpolated without a check (src/caddy.js:85). When it is absent, JavaScript writes `target:undefined`; the model writes `target:`.
- NodeHandler.WriteReverseProxy: the same holds for a handler's `toPort` (src/caddy.js:396).
- NodeAccess.WriteBasicAuths, NodeHandler.WriteHandler: an absent basic-auth user or password (src/caddy.js:294, src/caddy.js:367) is written as `undefined` by JavaScript and as nothing by the model.
- Numeric fields as strings: a numeric field stored as the string `"0"` is truthy in JavaScript. The source then writes the line with the value 0, for example `lb_retries 0` (src/caddy.js:466). The model treats 0 as unset and writes nothing. This affects `NodeHandler.WriteLoadBalancing` (`lb_retries`), `NodeHandler.WriteHealthExpect` (`health_passes`, `health_fails`), `NodeHandler.WritePassiveHealth` (`max_fails`, `unhealthy_request_count`), `NodeGlobal.ProxyBody` (`passive_health_max_fails`), and `NodeGlobal.RollSize` and `NodeGlobal.RollKeep` (a `"0"` roll setting is written as 0 rather than the default).
- Records: fields of the Go records that `generateCaddyfile` never reads are not modelled. Both generators read the shared record model.
- Duration.FormatDuration: only string input is modelled. A numeric value, which JavaScript turns into a string first, is passed as its decimal text.
- Sessions: the session store is the `expiresAt` map. The SQLite queries, the HTTP request and response objects, `next()`, and the 401 body text are left out. The outcome is the `Outcome` datatype.
- `generateSessionToken` is not part of this model, since it only returns random bytes.
- The HTTP handlers, persistence, the Caddy reload and the rest of `main.go` beyond `generateCaddyfile` and the CSRF rule are not part of this model.
- The unused local `dir` in the JavaScript pre-proxy header loop has no effect and is not modelled.

Deliberate as-written behaviours, which the model keeps:

- With Layer4 enabled and every route disabled, src/caddy.js still writes an empty `layer4 { }` block (`NodeGlobal.AllRoutesDisabled`).
- The two generators scope handlers differently: `GoCaddyfile.ScopingDiffers` and `NodeSite.MismatchedSubdomainDropped`.

## Findings

| source | as written | input that shows it | evidently intended | confidence | as-written member | corrected member |
|---|---|---|---|---|---|---|
| src/caddy.js:210-213 | the subdomain address joins the label to the parent's `fromDomain` and tests the result for a scheme, so a parent entered with its scheme puts that scheme inside the host | subdomain `api` under a domain whose `fromDomain` is `https://example.com`, port 443, gives `https://api.https://example.com:443` | `https://api.example.com:443`: the parent's scheme, then the label and the parent's host | not executed | Addresses.SubdomainAddressAsWritten, Addresses.SchemedParentDoubled, Addresses.SchemedParentDiffers, Addresses.SchemedParentCounterexample | Addresses.SubdomainAddress, Addresses.SchemedParentFixed, Addresses.SchemedParentCorrected |
| main.go:256-263 | the same construction, `sub.FromDomain + "." + domain.FromDomain`, before the scheme test | the same subdomain and parent | the same corrected address | not executed | Addresses.SubdomainAddressAsWritten, Addresses.SchemedParentCounterexample | Addresses.SubdomainAddress, Addresses.SchemedParentCorrected |

Both site-address loops (`NodeSite.CollectSiteAddresses`, which `GoCaddyfile.GoEmitSiteHead` also uses) build the address as the source writes it. The corrected list is `NodeSite.CorrectedSiteAddrs`; `NodeSite.CorrectedSiteAddrsAgree` and `Addresses.SubdomainAddressAgrees` prove that it is the list the source builds whenever the parent is entered without a scheme.
