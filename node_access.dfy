/** Access-list matchers and basic-auth blocks of src/caddy.js, written the
    same way at site level (lines 259-298: indentation one tab, matcher names
    `@al_<id>`) and inside a handler (lines 332-371: two tabs, `@al_h_<id>`).
    The two copies in the source differ only in indentation and name prefix,
    which are parameters here. */
module NodeAccess {
  import opened Text
  import opened Records

  /** The matcher primitive: `remote_ip` only when asked for by name, the
      client address behind trusted proxies (`client_ip`) otherwise. */
  function MatcherType(al: AccessList): (r: string)
    ensures r == "remote_ip" <==> al.requestMatcher == "remote_ip"
    ensures r != "remote_ip" ==> r == "client_ip"
  {
    if al.requestMatcher == "remote_ip" then "remote_ip" else "client_ip"
  }

  /** The command that turns a request away: `abort` unless a response code
      is set, then `respond <code>`, with the quoted message before the code
      when one is set. */
  function DenyCommand(al: AccessList): (r: string)
    ensures al.httpResponseCode == "" ==> r == "abort"
    ensures al.httpResponseCode != "" && al.httpResponseMessage == "" ==> r == "respond " + al.httpResponseCode
    ensures al.httpResponseCode != "" && al.httpResponseMessage != "" ==>
              r == "respond \"" + al.httpResponseMessage + "\" " + al.httpResponseCode
  {
    if al.httpResponseCode != "" then
      if al.httpResponseMessage != "" then "respond \"" + al.httpResponseMessage + "\" " + al.httpResponseCode
      else "respond " + al.httpResponseCode
    else "abort"
  }

  /** The deny line: a normal list denies every client its matcher does NOT
      match (`not`); an inverted list denies the clients it matches. */
  function WriteDenyLine(out: string, indent: string, al: AccessList, name: string): string
  {
    if al.invert then out + indent + DenyCommand(al) + " " + name + "\n"
    else out + indent + DenyCommand(al) + " not " + name + "\n"
  }

  /** One access list: a named matcher over its client addresses and the deny
      line; nothing when it has no addresses. */
  function WriteAccessList(out: string, al: AccessList, indent: string, prefix: string): string
  {
    if |al.clientIps| == 0 then out
    else
      var name := prefix + al.id;
      var s := out + indent + name + " {\n"
               + indent + "\t" + MatcherType(al) + " " + Join(al.clientIps, " ") + "\n"
               + indent + "}\n";
      WriteDenyLine(s, indent, al, name)
  }

  /** The access lists named by `ids`, in order; an id that resolves to no
      access list is skipped. */
  function WriteAccessLists(out: string, ids: seq<string>, lists: map<string, AccessList>,
                            indent: string, prefix: string): string
    decreases |ids|
  {
    if ids == [] then out
    else
      var s := WriteAccessLists(out, ids[..|ids| - 1], lists, indent, prefix);
      var id := ids[|ids| - 1];
      if id in lists then WriteAccessList(s, lists[id], indent, prefix) else s
  }

  /** One basic-auth block: the user and the password hash. */
  function WriteBasicAuth(out: string, ba: BasicAuth, indent: string): string
  {
    out + indent + "basicauth {\n"
    + indent + "\t" + ba.user + " " + ba.passHash + "\n"
    + indent + "}\n"
  }

  /** The basic-auth blocks named by `ids`, in order; unresolved ids are
      skipped. */
  function WriteBasicAuths(out: string, ids: seq<string>, auths: map<string, BasicAuth>, indent: string): string
    decreases |ids|
  {
    if ids == [] then out
    else
      var s := WriteBasicAuths(out, ids[..|ids| - 1], auths, indent);
      var id := ids[|ids| - 1];
      if id in auths then WriteBasicAuth(s, auths[id], indent) else s
  }

  // ----- Properties -----

  /** Polarity: the two settings of `invert` give the same line but for the
      word `not` before the matcher name. */
  lemma DenyPolarity(out: string, indent: string, al: AccessList, name: string)
    ensures var head := out + indent + DenyCommand(al);
            WriteDenyLine(out, indent, al.(invert := true), name) == head + " " + name + "\n"
            && WriteDenyLine(out, indent, al.(invert := false), name) == head + " " + "not " + name + "\n"
  {
    var head := out + indent + DenyCommand(al);
    assert head + " not " == head + " " + "not ";
  }

  /** Any matcher setting other than `remote_ip` writes the same text as
      `client_ip`. */
  lemma OtherMatcherIsClientIp(out: string, al: AccessList, indent: string, prefix: string)
    requires al.requestMatcher != "remote_ip"
    ensures WriteAccessList(out, al, indent, prefix)
         == WriteAccessList(out, al.(requestMatcher := "client_ip"), indent, prefix)
  {
  }

  /** An access list without addresses writes nothing, whatever else it
      says. */
  lemma EmptyListSkipped(out: string, al: AccessList, indent: string, prefix: string)
    requires |al.clientIps| == 0
    ensures WriteAccessList(out, al, indent, prefix) == out
  {
  }

  /** Ids that resolve to nothing are skipped: only resolvable ids count. */
  lemma {:induction false} UnresolvedIdsSkipped(out: string, ids: seq<string>, lists: map<string, AccessList>,
                                                indent: string, prefix: string)
    ensures WriteAccessLists(out, ids, lists, indent, prefix)
         == WriteAccessLists(out, Resolvable(ids, lists.Keys), lists, indent, prefix)
    decreases |ids|
  {
    if ids != [] {
      var init, id := ids[..|ids| - 1], ids[|ids| - 1];
      UnresolvedIdsSkipped(out, init, lists, indent, prefix);
      var r := Resolvable(init, lists.Keys);
      if id in lists {
        assert Resolvable(ids, lists.Keys) == r + [id];
        assert (r + [id])[..|r|] == r;
      } else {
        assert Resolvable(ids, lists.Keys) == r;
      }
    }
  }

  /** The ids of `ids` found in `keys`, in order. */
  function Resolvable(ids: seq<string>, keys: set<string>): (r: seq<string>)
    ensures forall id :: id in r ==> id in ids && id in keys
    decreases |ids|
  {
    if ids == [] then []
    else
      var id := ids[|ids| - 1];
      Resolvable(ids[..|ids| - 1], keys) + (if id in keys then [id] else [])
  }

  // ----- The imperative emitters -----

  /** The body of one pass of an access-list loop, for a resolved list. */
  method EmitAccessList(acc: string, al: AccessList, indent: string, prefix: string) returns (sb: string)
    ensures sb == WriteAccessList(acc, al, indent, prefix)
  {
    sb := acc;
    if |al.clientIps| > 0 {
      var matcherName := prefix + al.id;
      var matcherType := if al.requestMatcher == "remote_ip" then "remote_ip" else "client_ip";
      sb := sb + indent + matcherName + " {\n";
      sb := sb + indent + "\t" + matcherType + " " + Join(al.clientIps, " ") + "\n";
      sb := sb + indent + "}\n";
      var abortCmd := "abort";
      if al.httpResponseCode != "" {
        abortCmd := "respond " + al.httpResponseCode;
        if al.httpResponseMessage != "" {
          abortCmd := "respond \"" + al.httpResponseMessage + "\" " + al.httpResponseCode;
        }
      }
      if al.invert {
        sb := sb + indent + abortCmd + " " + matcherName + "\n";
      } else {
        sb := sb + indent + abortCmd + " not " + matcherName + "\n";
      }
    }
  }

  /** The `for (const alID of ...accesslist)` loop. */
  method EmitAccessLists(acc: string, ids: seq<string>, lists: map<string, AccessList>,
                         indent: string, prefix: string) returns (sb: string)
    ensures sb == WriteAccessLists(acc, ids, lists, indent, prefix)
  {
    sb := acc;
    for i := 0 to |ids|
      invariant sb == WriteAccessLists(acc, ids[..i], lists, indent, prefix)
    {
      assert ids[..i + 1][..i] == ids[..i];
      var alID := ids[i];
      if alID in lists {
        sb := EmitAccessList(sb, lists[alID], indent, prefix);
      }
    }
    assert ids[..|ids|] == ids;
  }

  /** The `for (const baID of ...basicauth)` loop. */
  method EmitBasicAuths(acc: string, ids: seq<string>, auths: map<string, BasicAuth>, indent: string)
    returns (sb: string)
    ensures sb == WriteBasicAuths(acc, ids, auths, indent)
  {
    sb := acc;
    for i := 0 to |ids|
      invariant sb == WriteBasicAuths(acc, ids[..i], auths, indent)
    {
      assert ids[..i + 1][..i] == ids[..i];
      var baID := ids[i];
      if baID in auths {
        var ba := auths[baID];
        sb := sb + indent + "basicauth {\n";
        sb := sb + indent + "\t" + ba.user + " " + ba.passHash + "\n";
        sb := sb + indent + "}\n";
      }
    }
    assert ids[..|ids|] == ids;
  }
}
