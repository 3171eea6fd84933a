/** Site addresses, upstream lists and certificate file names, built the same
    way by src/caddy.js and main.go. */
module Addresses {
  import opened Text

  /** The port a site listens on: `fromPort` when set, else 80 for a site
      without TLS and 443 for a site with TLS. */
  function EffectivePort(fromPort: string, disableTls: bool): (r: string)
    ensures r != ""
    ensures fromPort != "" ==> r == fromPort
    ensures fromPort == "" && disableTls ==> r == "80"
    ensures fromPort == "" && !disableTls ==> r == "443"
  {
    if fromPort != "" then fromPort else if disableTls then "80" else "443"
  }

  predicate HasScheme(a: string)
  {
    StartsWith(a, "http://") || StartsWith(a, "https://")
  }

  function SchemeFor(disableTls: bool): string
  {
    if disableTls then "http://" else "https://"
  }

  /** Appending keeps a prefix. */
  lemma PrefixKept(s: string, p: string, t: string)
    requires StartsWith(s, p)
    ensures StartsWith(s + t, p)
  {
    assert (s + t)[..|p|] == s[..|p|];
  }

  /** Appending keeps a scheme. */
  lemma SchemeKept(s: string, t: string)
    requires HasScheme(s)
    ensures HasScheme(s + t)
  {
    if StartsWith(s, "http://") {
      PrefixKept(s, "http://", t);
    } else {
      PrefixKept(s, "https://", t);
    }
  }

  /** A string ends in what was appended last. */
  lemma SuffixAppended(s: string, t: string)
    ensures EndsWith(s + t, t)
  {
    assert (s + t)[|s + t| - |t|..] == t;
  }

  /** A scheme-free prefix makes a string with a scheme. */
  lemma SchemePrepended(scheme: string, a: string)
    requires scheme == "http://" || scheme == "https://"
    ensures HasScheme(scheme + a)
  {
    assert (scheme + a)[..|scheme|] == scheme;
  }

  /** The address with a scheme: left alone when it already starts with
      `http://` or `https://`, otherwise prefixed by the scheme the TLS
      setting calls for. */
  function WithScheme(a: string, disableTls: bool): (r: string)
    ensures HasScheme(r)
    ensures HasScheme(a) ==> r == a
    ensures !HasScheme(a) ==> r == SchemeFor(disableTls) + a
  {
    if HasScheme(a) then a
    else
      SchemePrepended(SchemeFor(disableTls), a);
      SchemeFor(disableTls) + a
  }

  /** `w:port`, keeping the scheme of `w`. */
  function WithPort(w: string, port: string): (r: string)
    requires HasScheme(w)
    ensures HasScheme(r) && EndsWith(r, ":" + port)
    ensures r == w + ":" + port
  {
    SchemeKept(w, ":" + port);
    SuffixAppended(w, ":" + port);
    assert w + (":" + port) == w + ":" + port;
    w + ":" + port
  }

  /** The address of the domain itself: scheme, host and port. */
  function BaseAddress(fromDomain: string, port: string, disableTls: bool): (r: string)
    ensures HasScheme(r) && EndsWith(r, ":" + port)
  {
    WithPort(WithScheme(fromDomain, disableTls), port)
  }

  /** The address of a subdomain as the generators build it: the label `sub` and
      the parent's `fromDomain` joined by a dot, then given a scheme and the
      port. When the parent's `fromDomain` already carries a scheme, that
      scheme ends up inside the host. */
  function SubdomainAddressAsWritten(sub: string, parent: string, port: string, disableTls: bool): (r: string)
    ensures HasScheme(r) && EndsWith(r, ":" + port)
  {
    WithPort(WithScheme(sub + "." + parent, disableTls), port)
  }

  /** The scheme a domain's address carries: its own, when `fromDomain`
      has one, else the one the TLS setting calls for. */
  function SchemeOf(fromDomain: string, disableTls: bool): (r: string)
    ensures r == "http://" || r == "https://"
  {
    if StartsWith(fromDomain, "http://") then "http://"
    else if StartsWith(fromDomain, "https://") then "https://"
    else SchemeFor(disableTls)
  }

  /** `fromDomain` without its scheme. */
  function HostOf(fromDomain: string): (r: string)
    ensures SchemeOf(fromDomain, false) + r == WithScheme(fromDomain, false)
    ensures SchemeOf(fromDomain, true) + r == WithScheme(fromDomain, true)
  {
    if StartsWith(fromDomain, "http://") then fromDomain[7..]
    else if StartsWith(fromDomain, "https://") then
      assert !StartsWith(fromDomain, "http://") by { assert fromDomain[4] == 's'; }
      fromDomain[8..]
    else fromDomain
  }

  /** The subdomain address with the label `sub` placed after the parent's scheme:
      the scheme and port of the parent's own address, host `sub.host`. */
  function SubdomainAddress(sub: string, parent: string, port: string, disableTls: bool): (r: string)
    ensures HasScheme(r) && EndsWith(r, ":" + port)
  {
    var a := sub + "." + HostOf(parent);
    WithPort(if HasScheme(a) then a else (SchemePrepended(SchemeOf(parent, disableTls), a); SchemeOf(parent, disableTls) + a), port)
  }

  /** The base address is the parent's scheme, its host and the port. */
  lemma BaseAddressParts(fromDomain: string, port: string, disableTls: bool)
    ensures BaseAddress(fromDomain, port, disableTls)
         == SchemeOf(fromDomain, disableTls) + HostOf(fromDomain) + ":" + port
  {
    if disableTls {
      assert SchemeOf(fromDomain, true) + HostOf(fromDomain) == WithScheme(fromDomain, true);
    } else {
      assert SchemeOf(fromDomain, false) + HostOf(fromDomain) == WithScheme(fromDomain, false);
    }
  }

  /** A subdomain address shares scheme and port with its parent's address,
      and its host is the label, a dot and the parent's host. */
  lemma SubdomainAddressParts(sub: string, parent: string, port: string, disableTls: bool)
    requires !HasScheme(sub + "." + HostOf(parent))
    ensures SubdomainAddress(sub, parent, port, disableTls)
         == SchemeOf(parent, disableTls) + sub + "." + HostOf(parent) + ":" + port
  {
    var scheme, host := SchemeOf(parent, disableTls), HostOf(parent);
    assert SubdomainAddress(sub, parent, port, disableTls) == scheme + (sub + "." + host) + ":" + port;
    Regroup(scheme, sub, ".", host, ":" + port);
  }

  /** Regrouping a concatenation of five strings. */
  lemma Regroup(s: string, a: string, b: string, c: string, e: string)
    ensures s + (a + b + c) + e == s + a + b + c + e
  {
  }

  /** Regrouping a concatenation of six strings. */
  lemma RegroupSplit(s: string, a: string, b: string, c: string, d: string, e: string)
    ensures s + (a + b + (c + d)) + e == s + a + b + c + d + e
  {
  }

  /** Where the parent's `fromDomain` has no scheme, the corrected address is
      the one the generators build. */
  lemma SubdomainAddressAgrees(sub: string, parent: string, port: string, disableTls: bool)
    requires !HasScheme(parent)
    ensures SubdomainAddress(sub, parent, port, disableTls)
         == SubdomainAddressAsWritten(sub, parent, port, disableTls)
  {
  }

  /** Every address with a scheme starts with `h`. */
  lemma SchemeStartsWithH(a: string)
    ensures HasScheme(a) ==> |a| > 0 && a[0] == 'h'
  {
    if StartsWith(a, "http://") {
      assert a[..7][0] == a[0];
    } else if StartsWith(a, "https://") {
      assert a[..8][0] == a[0];
    }
  }

  /** The scheme and host of a parent entered as `https://host`. */
  lemma HttpsParentParts(host: string)
    ensures SchemeOf("https://" + host, false) == "https://"
    ensures HostOf("https://" + host) == host
  {
    var parent := "https://" + host;
    assert parent[..8] == "https://";
    assert parent[4] == 's';
    assert parent[8..] == host;
  }

  /** A parent entered with its scheme, as the data model allows: the
      address built for a subdomain label carries the scheme twice, once in
      front and once inside the host. */
  lemma SchemedParentDoubled(sub: string, host: string, port: string)
    requires |sub| > 0 && sub[0] != 'h'
    ensures SubdomainAddressAsWritten(sub, "https://" + host, port, false)
         == "https://" + sub + "." + "https://" + host + ":" + port
  {
    var a := sub + "." + ("https://" + host);
    assert a[0] == sub[0];
    SchemeStartsWithH(a);
    AsWrittenUnschemed(sub, "https://" + host, port, false);
    RegroupSplit("https://", sub, ".", "https://", host, ":" + port);
  }

  /** For such a parent the address as built is not the corrected one. */
  lemma SchemedParentDiffers(sub: string, host: string, port: string)
    requires |sub| > 0 && sub[0] != 'h'
    ensures SubdomainAddressAsWritten(sub, "https://" + host, port, false)
         != SubdomainAddress(sub, "https://" + host, port, false)
  {
    SchemedParentDoubled(sub, host, port);
    SchemedParentFixed(sub, host, port);
    LongerDiffers("https://" + sub + "." + "https://" + host + ":" + port, "https://" + sub + "." + host + ":" + port);
  }

  /** A label under a parent whose joined name has no scheme gets the
      scheme the TLS setting calls for. */
  lemma AsWrittenUnschemed(sub: string, parent: string, port: string, disableTls: bool)
    requires !HasScheme(sub + "." + parent)
    ensures SubdomainAddressAsWritten(sub, parent, port, disableTls)
         == SchemeFor(disableTls) + (sub + "." + parent) + ":" + port
  {
  }

  /** A domain entered without a scheme gets the TLS-chosen scheme and the
      port, and so does a subdomain joined to it when the joined name has no
      scheme. */
  lemma UnschemedParentAddresses(sub: string, parent: string, port: string, disableTls: bool)
    requires !HasScheme(parent) && !HasScheme(sub + "." + parent)
    ensures BaseAddress(parent, port, disableTls) == SchemeFor(disableTls) + parent + ":" + port
    ensures SubdomainAddressAsWritten(sub, parent, port, disableTls)
         == SchemeFor(disableTls) + sub + "." + parent + ":" + port
  {
    AsWrittenUnschemed(sub, parent, port, disableTls);
    Regroup(SchemeFor(disableTls), sub, ".", parent, ":" + port);
  }

  lemma LongerDiffers(x: string, y: string)
    requires |x| > |y|
    ensures x != y
  {
  }

  /** The corrected address for the same inputs: the label goes after the
      parent's scheme, which appears once. */
  lemma SchemedParentFixed(sub: string, host: string, port: string)
    requires |sub| > 0 && sub[0] != 'h'
    ensures SubdomainAddress(sub, "https://" + host, port, false) == "https://" + sub + "." + host + ":" + port
  {
    HttpsParentParts(host);
    var a := sub + "." + host;
    assert a[0] == sub[0];
    SchemeStartsWithH(a);
    SubdomainAddressParts(sub, "https://" + host, port, false);
  }

  /** The subdomain `api` of the parent `https://example.com`. */
  lemma SchemedParentCounterexample()
    ensures SubdomainAddressAsWritten("api", "https://" + "example.com", "443", false)
         == "https://" + "api" + "." + "https://" + "example.com" + ":" + "443"
  {
    SchemedParentDoubled("api", "example.com", "443");
  }

  /** The same subdomain and parent with the corrected address. */
  lemma SchemedParentCorrected()
    ensures SubdomainAddress("api", "https://" + "example.com", "443", false)
         == "https://" + "api" + "." + "example.com" + ":" + "443"
  {
    SchemedParentFixed("api", "example.com", "443");
  }

  /** `out` followed by ` to:port` for each upstream, in input order (the
      upstream loops of both generators). */
  function WriteUpstreams(out: string, tos: seq<string>, port: string): (r: string)
    ensures StartsWith(r, out)
    ensures tos == [] ==> r == out
    decreases |tos|
  {
    if tos == [] then out
    else
      var s := WriteUpstreams(out, tos[..|tos| - 1], port);
      var r := s + " " + tos[|tos| - 1] + ":" + port;
      assert r[..|s|] == s;
      r
  }

  /** Reference definition: the upstream list read from the front, each
      target followed by the common port and preceded by a blank. */
  function UpstreamList(tos: seq<string>, port: string): string
    decreases |tos|
  {
    if tos == [] then "" else " " + tos[0] + ":" + port + UpstreamList(tos[1..], port)
  }

  /** The loop appends exactly the upstream list: every target once, in
      order, each with the port. */
  lemma {:induction false} WriteUpstreamsIsList(out: string, tos: seq<string>, port: string)
    ensures WriteUpstreams(out, tos, port) == out + UpstreamList(tos, port)
    decreases |tos|
  {
    if tos != [] {
      var init, last := tos[..|tos| - 1], tos[|tos| - 1];
      var s := WriteUpstreams(out, init, port);
      assert WriteUpstreams(out, tos, port) == s + " " + last + ":" + port;
      WriteUpstreamsIsList(out, init, port);
      assert tos == init + [last];
      UpstreamListSnoc(init, last, port);
      var l := UpstreamList(init, port);
      assert out + l + " " + last + ":" + port == out + (l + " " + last + ":" + port);
    }
  }

  lemma {:induction false} UpstreamListSnoc(tos: seq<string>, to: string, port: string)
    ensures UpstreamList(tos + [to], port) == UpstreamList(tos, port) + " " + to + ":" + port
    decreases |tos|
  {
    if tos == [] {
      assert UpstreamList([to], port) == " " + to + ":" + port + UpstreamList([], port);
    } else {
      assert (tos + [to])[1..] == tos[1..] + [to];
      UpstreamListSnoc(tos[1..], to, port);
    }
  }

  /** The upstream loop: appends ` to:port` for each upstream. */
  method AppendUpstreams(acc: string, tos: seq<string>, port: string) returns (sb: string)
    ensures sb == WriteUpstreams(acc, tos, port)
  {
    sb := acc;
    for i := 0 to |tos|
      invariant sb == WriteUpstreams(acc, tos[..i], port)
    {
      assert tos[..i + 1][..i] == tos[..i];
      sb := sb + " " + tos[i] + ":" + port;
    }
    assert tos[..|tos|] == tos;
  }

  /** `path.join(dir, name)` with forward slashes, for a directory given
      without a trailing separator and a plain file name. */
  function JoinPath(dir: string, name: string): (r: string)
    ensures EndsWith(r, "/" + name)
  {
    var r := dir + "/" + name;
    assert r[|r| - |"/" + name|..] == "/" + name;
    r
  }

  /** The key file expected beside a certificate: a trailing `.pem` is
      replaced by `.key`, any other name gets `.key` appended. */
  function KeyFileName(cert: string): (r: string)
    ensures EndsWith(cert, ".pem") ==> r == cert[..|cert| - 4] + ".key"
    ensures EndsWith(r, ".key")
    ensures !EndsWith(cert, ".pem") ==> r == cert + ".key"
  {
    var r := TrimSuffix(cert, ".pem") + ".key";
    assert r[|r| - 4..] == ".key";
    r
  }
}
