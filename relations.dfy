/** The relation indices the generators build before emitting site blocks:
    records by id (access lists, basic-auth users, header rules), and, for
    src/caddy.js, the enabled subdomains grouped by parent domain and the
    enabled handlers grouped by the id of the domain that owns them. Each index
    is specified by a function over a prefix of the input, which is what a loop
    that fills the index has built so far, and is related by a lemma to a
    reference definition that filters the input directly. */
module Relations {
  import opened Records

  /** `m[key(x)] = x` for every `x` in order: the last record with an id wins. */
  function IndexBy<T>(xs: seq<T>, key: T -> string): map<string, T>
    decreases |xs|
  {
    if xs == [] then map[]
    else IndexBy(xs[..|xs| - 1], key)[key(xs[|xs| - 1]) := xs[|xs| - 1]]
  }

  /** `m[k] || []`. */
  function Lookup<T>(m: map<string, seq<T>>, k: string): seq<T>
  {
    if k in m then m[k] else []
  }

  /** An id is in the index exactly when some record carries it, and then the
      index holds the last such record. */
  lemma IndexByContents<T>(xs: seq<T>, key: T -> string, id: string)
    ensures id in IndexBy(xs, key) <==> exists k :: 0 <= k < |xs| && key(xs[k]) == id
    ensures id in IndexBy(xs, key) ==>
      exists k :: 0 <= k < |xs| && key(xs[k]) == id && IndexBy(xs, key)[id] == xs[k]
                  && forall j :: k < j < |xs| ==> key(xs[j]) != id
  {
    IndexByKeys(xs, key, id);
    IndexByLast(xs, key, id);
  }

  lemma {:induction false} IndexByKeys<T>(xs: seq<T>, key: T -> string, id: string)
    ensures id in IndexBy(xs, key) <==> exists k :: 0 <= k < |xs| && key(xs[k]) == id
    decreases |xs|
  {
    if xs != [] {
      var n := |xs| - 1;
      var init := xs[..n];
      IndexByKeys(init, key, id);
      if id in IndexBy(init, key) {
        var k :| 0 <= k < |init| && key(init[k]) == id;
        assert xs[k] == init[k];
      }
      if key(xs[n]) != id && exists k :: 0 <= k < |xs| && key(xs[k]) == id {
        var k :| 0 <= k < |xs| && key(xs[k]) == id;
        assert init[k] == xs[k];
      }
    }
  }

  lemma {:induction false} IndexByLast<T>(xs: seq<T>, key: T -> string, id: string)
    ensures id in IndexBy(xs, key) ==>
      exists k :: 0 <= k < |xs| && key(xs[k]) == id && IndexBy(xs, key)[id] == xs[k]
                  && forall j :: k < j < |xs| ==> key(xs[j]) != id
    decreases |xs|
  {
    if xs != [] {
      var n := |xs| - 1;
      var init := xs[..n];
      if key(xs[n]) == id {
        assert IndexBy(xs, key)[id] == xs[n];
      } else if id in IndexBy(xs, key) {
        IndexByLast(init, key, id);
        var k :| 0 <= k < |init| && key(init[k]) == id && IndexBy(init, key)[id] == init[k]
                 && forall j :: k < j < |init| ==> key(init[j]) != id;
        assert xs[k] == init[k];
        assert forall j :: k < j < |xs| ==> key(xs[j]) != id by {
          forall j | k < j < |xs| ensures key(xs[j]) != id {
            if j < n {
              assert xs[j] == init[j];
            }
          }
        }
      }
    }
  }

  lemma IndexBySnoc<T>(xs: seq<T>, x: T, key: T -> string)
    ensures IndexBy(xs + [x], key) == IndexBy(xs, key)[key(x) := x]
  {
    assert (xs + [x])[..|xs|] == xs;
  }

  /** Fills an id index in one pass, as the source's `for ... m[x.id] = x`. */
  method BuildIndex<T>(xs: seq<T>, key: T -> string) returns (m: map<string, T>)
    ensures m == IndexBy(xs, key)
  {
    m := map[];
    for i := 0 to |xs|
      invariant m == IndexBy(xs[..i], key)
    {
      assert xs[..i + 1][..i] == xs[..i];
      m := m[key(xs[i]) := xs[i]];
    }
    assert xs[..|xs|] == xs;
  }

  function AccessListId(al: AccessList): string { al.id }
  function BasicAuthId(ba: BasicAuth): string { ba.id }
  function HeaderId(h: Header): string { h.id }
  function SubdomainId(s: Subdomain): string { s.id }

  /** The enabled subdomains, in input order. */
  function EnabledSubdomains(subs: seq<Subdomain>): (r: seq<Subdomain>)
    ensures forall s :: s in r ==> s in subs && s.enabled
    decreases |subs|
  {
    if subs == [] then []
    else
      var s := subs[|subs| - 1];
      EnabledSubdomains(subs[..|subs| - 1]) + (if s.enabled then [s] else [])
  }

  /** `subdomainsById` of src/caddy.js: enabled subdomains only, last wins. */
  function SubdomainsById(subs: seq<Subdomain>): map<string, Subdomain>
  {
    IndexBy(EnabledSubdomains(subs), SubdomainId)
  }

  /** `subdomainsByDomain` of src/caddy.js: each enabled subdomain with a
      non-empty `reverse` appended to the list of that domain id. */
  function SubdomainsByDomain(subs: seq<Subdomain>): map<string, seq<Subdomain>>
    decreases |subs|
  {
    if subs == [] then map[]
    else
      var m := SubdomainsByDomain(subs[..|subs| - 1]);
      var s := subs[|subs| - 1];
      if s.enabled && s.reverse != "" then m[s.reverse := Lookup(m, s.reverse) + [s]] else m
  }

  /** Reference definition: the subdomains attached to domain id `did`, i.e.
      the enabled ones whose `reverse` is `did` (an empty `reverse` attaches
      nowhere), in input order. */
  function AttachedSubdomains(subs: seq<Subdomain>, did: string): (r: seq<Subdomain>)
    ensures forall s :: s in r ==> s in subs && s.enabled && s.reverse == did && did != ""
    decreases |subs|
  {
    if subs == [] then []
    else
      var s := subs[|subs| - 1];
      AttachedSubdomains(subs[..|subs| - 1], did)
        + (if s.enabled && s.reverse != "" && s.reverse == did then [s] else [])
  }

  /** The grouped map holds, under each domain id, exactly the subdomains
      attached to it, in input order. */
  lemma {:induction false} SubdomainsByDomainIsAttached(subs: seq<Subdomain>, did: string)
    ensures Lookup(SubdomainsByDomain(subs), did) == AttachedSubdomains(subs, did)
    decreases |subs|
  {
    if subs != [] {
      SubdomainsByDomainIsAttached(subs[..|subs| - 1], did);
    }
  }

  /** One pass over the subdomains filling both `subdomainsById` and
      `subdomainsByDomain`. */
  method GroupSubdomains(subs: seq<Subdomain>)
    returns (byDomain: map<string, seq<Subdomain>>, byId: map<string, Subdomain>)
    ensures byDomain == SubdomainsByDomain(subs)
    ensures byId == SubdomainsById(subs)
  {
    byDomain, byId := map[], map[];
    for i := 0 to |subs|
      invariant byDomain == SubdomainsByDomain(subs[..i])
      invariant byId == IndexBy(EnabledSubdomains(subs[..i]), SubdomainId)
    {
      var sub := subs[i];
      assert subs[..i + 1][..i] == subs[..i];
      ghost var enabledSoFar := EnabledSubdomains(subs[..i]);
      ghost var grouped := byDomain;
      if sub.enabled {
        assert EnabledSubdomains(subs[..i + 1]) == enabledSoFar + [sub];
        IndexBySnoc(enabledSoFar, sub, SubdomainId);
        byId := byId[sub.id := sub];
        if sub.reverse != "" {
          if sub.reverse !in byDomain {
            byDomain := byDomain[sub.reverse := []];
          }
          assert byDomain[sub.reverse] == Lookup(grouped, sub.reverse);
          byDomain := byDomain[sub.reverse := byDomain[sub.reverse] + [sub]];
          assert byDomain == grouped[sub.reverse := Lookup(grouped, sub.reverse) + [sub]];
        }
      } else {
        assert EnabledSubdomains(subs[..i + 1]) == enabledSoFar;
      }
    }
    assert subs[..|subs|] == subs;
  }

  /** The id of the domain a handler is grouped under in src/caddy.js: its own
      `reverse` when set, otherwise the `reverse` of its (enabled) subdomain;
      the empty string when neither resolves. */
  function OwnerId(h: Handler, subsById: map<string, Subdomain>): string
  {
    if h.reverse != "" then h.reverse
    else if h.subdomain != "" && h.subdomain in subsById && subsById[h.subdomain].reverse != "" then
      subsById[h.subdomain].reverse
    else ""
  }

  /** `handlersByDomain` of src/caddy.js. */
  function HandlersByDomain(hs: seq<Handler>, subsById: map<string, Subdomain>): map<string, seq<Handler>>
    decreases |hs|
  {
    if hs == [] then map[]
    else
      var m := HandlersByDomain(hs[..|hs| - 1], subsById);
      var h := hs[|hs| - 1];
      var owner := OwnerId(h, subsById);
      if h.enabled && owner != "" then m[owner := Lookup(m, owner) + [h]] else m
  }

  /** Reference definition: the enabled handlers owned by domain id `did`. */
  function OwnedHandlers(hs: seq<Handler>, subsById: map<string, Subdomain>, did: string): (r: seq<Handler>)
    ensures forall h :: h in r ==> h in hs && h.enabled && OwnerId(h, subsById) == did && did != ""
    decreases |hs|
  {
    if hs == [] then []
    else
      var h := hs[|hs| - 1];
      OwnedHandlers(hs[..|hs| - 1], subsById, did)
        + (if h.enabled && did != "" && OwnerId(h, subsById) == did then [h] else [])
  }

  /** The grouped map holds, under each domain id, exactly the enabled
      handlers that domain owns, in input order. */
  lemma {:induction false} HandlersByDomainIsOwned(hs: seq<Handler>, subsById: map<string, Subdomain>, did: string)
    ensures Lookup(HandlersByDomain(hs, subsById), did) == OwnedHandlers(hs, subsById, did)
    decreases |hs|
  {
    if hs != [] {
      HandlersByDomainIsOwned(hs[..|hs| - 1], subsById, did);
    }
  }

  /** One pass over the handlers filling `handlersByDomain`. */
  method GroupHandlers(hs: seq<Handler>, subsById: map<string, Subdomain>)
    returns (byDomain: map<string, seq<Handler>>)
    ensures byDomain == HandlersByDomain(hs, subsById)
  {
    byDomain := map[];
    for i := 0 to |hs|
      invariant byDomain == HandlersByDomain(hs[..i], subsById)
    {
      var handler := hs[i];
      assert hs[..i + 1][..i] == hs[..i];
      if handler.enabled {
        var domainId := "";
        if handler.reverse != "" {
          domainId := handler.reverse;
        } else if handler.subdomain != "" {
          if handler.subdomain in subsById && subsById[handler.subdomain].reverse != "" {
            domainId := subsById[handler.subdomain].reverse;
          }
        }
        if domainId != "" {
          if domainId !in byDomain {
            byDomain := byDomain[domainId := []];
          }
          byDomain := byDomain[domainId := byDomain[domainId] + [handler]];
        }
      }
    }
    assert hs[..|hs|] == hs;
  }
}
