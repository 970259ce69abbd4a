/**
 * What the core writes over the merged config before Android starts it: the tun and dns sections
 * and the name server policy of the control hosts (core/mobile/core.go).
 */
module RuntimeOverlay {
  import opened Options
  import opened YamlMerge

  const TUN_MTU := "4064"
  const TUN_STACK := "system"
  const TUN_DNS := "0.0.0.0:53"
  const FAKE_IP_RANGE := "172.19.0.1/16"
  const TUN_IPV6_ADDRESS := "fdfe:dcbe:9876::1/126"

  /**
   * The text handling around the overlay: the control hosts found in the proxies and the proxy
   * providers, whether a policy key covers a host, and how numbers and servers are spelled.
   */
  datatype Text = Text(
    hosts: (Option<Tree>, Option<Tree>) -> seq<string>,
    covers: (string, string) -> bool,
    decimal: int -> string,
    url: string -> string)

  // ----- The overlay on values ------------------------------------------------------------

  function Leaf(tag: string, value: string): Tree {
    Tree(Scalar, tag, value, [])
  }

  function TextList(values: seq<string>): Tree {
    Tree(Sequence, "", "", seq(|values|, i requires 0 <= i < |values| => Leaf("!!str", values[i])))
  }

  /** `ensureMapping`: the mapping that is there, or an empty one. */
  function Ensured(found: Option<Tree>): Tree {
    if found.Some? && found.value.kind.Mapping? then found.value else Tree(Mapping, "", "", [])
  }

  predicate Flag(found: Option<Tree>) {
    found.Some? && found.value.kind.Scalar? && found.value.value == "true"
  }

  function Fill(kids: seq<Tree>, key: string, v: Tree): seq<Tree> {
    if HasKey(kids, key) then kids else Put(kids, key, v)
  }

  function AttachedTun(kids: seq<Tree>, fd: string): seq<Tree> {
    Put(Put(kids, "enable", Leaf("!!bool", "true")), "file-descriptor", Leaf("!!int", fd))
  }

  function ForcedTun(kids: seq<Tree>, fd: string): seq<Tree> {
    var attached := AttachedTun(kids, fd);
    var unrouted := Put(attached, "auto-route", Leaf("!!bool", "false"));
    var undetected := Put(unrouted, "auto-detect-interface", Leaf("!!bool", "false"));
    Put(undetected, "mtu", Leaf("!!int", TUN_MTU))
  }

  function FilledTun(kids: seq<Tree>, ipv6: bool): seq<Tree> {
    var stacked := Fill(kids, "stack", Leaf("!!str", TUN_STACK));
    var hijacked := Fill(stacked, "dns-hijack", TextList([TUN_DNS]));
    if ipv6 then Fill(hijacked, "inet6-address", TextList([TUN_IPV6_ADDRESS])) else hijacked
  }

  function TunTree(t: Text, kids: seq<Tree>, fd: int): Tree {
    var tun := Ensured(Find(kids, "tun"));
    tun.(kids := FilledTun(ForcedTun(tun.kids, t.decimal(fd)), Flag(Find(kids, "ipv6"))))
  }

  function WithTun(t: Text, kids: seq<Tree>, fd: int): seq<Tree> {
    Put(kids, "tun", TunTree(t, kids, fd))
  }

  /** `hasDNSPolicyForHost`: a scalar key that covers the host. */
  predicate HasPolicy(t: Text, policy: seq<Tree>, host: string) {
    |policy| >= 2
    && ((policy[0].kind.Scalar? && t.covers(policy[0].value, host)) || HasPolicy(t, policy[2..], host))
  }

  function Missing(t: Text, policy: seq<Tree>, hosts: seq<string>): seq<string> {
    if hosts == [] then []
    else (if HasPolicy(t, policy, hosts[0]) then [] else [hosts[0]]) + Missing(t, policy, hosts[1..])
  }

  function PutEach(kids: seq<Tree>, hosts: seq<string>, v: Tree): seq<Tree>
    decreases hosts
  {
    if hosts == [] then kids else PutEach(Put(kids, hosts[0], v), hosts[1..], v)
  }

  function Urls(t: Text, servers: seq<string>): Tree {
    TextList(seq(|servers|, i requires 0 <= i < |servers| => t.url(servers[i])))
  }

  /** The policy after the missing hosts were added. */
  function Spoken(t: Text, policy: seq<Tree>, hosts: seq<string>, servers: seq<string>): seq<Tree> {
    PutEach(policy, Missing(t, policy, hosts), Urls(t, servers))
  }

  function Injected(t: Text, dns: seq<Tree>, hosts: seq<string>, servers: seq<string>): seq<Tree> {
    var found := Find(dns, "nameserver-policy");
    var policy := Ensured(found);
    if found.Some? && !found.value.kind.Mapping? then dns
    else if Missing(t, policy.kids, hosts) == [] || servers == [] then dns
    else Put(dns, "nameserver-policy", policy.(kids := Spoken(t, policy.kids, hosts, servers)))
  }

  function RangedDns(kids: seq<Tree>): seq<Tree> {
    Put(Ensured(Find(kids, "dns")).kids, "fake-ip-range", Leaf("!!str", FAKE_IP_RANGE))
  }

  function DnsTree(t: Text, kids: seq<Tree>, hosts: seq<string>, servers: seq<string>): Tree {
    Ensured(Find(kids, "dns")).(kids := Injected(t, RangedDns(kids), hosts, servers))
  }

  /** The hosts the injection reports for tracking: those without a policy, also without servers. */
  function Reported(t: Text, dns: seq<Tree>, hosts: seq<string>): seq<string> {
    var found := Find(dns, "nameserver-policy");
    if found.Some? && !found.value.kind.Mapping? then [] else Missing(t, Ensured(found).kids, hosts)
  }

  /** What is reported for a merged config. */
  function ReportedHosts(t: Text, kids: seq<Tree>): seq<string> {
    Reported(t, Ensured(Find(kids, "dns")).kids, HostsOf(t, kids))
  }

  function WithDns(t: Text, kids: seq<Tree>, hosts: seq<string>, servers: seq<string>): seq<Tree> {
    Put(kids, "dns", DnsTree(t, kids, hosts, servers))
  }

  function HostsOf(t: Text, kids: seq<Tree>): seq<string> {
    t.hosts(Find(kids, "proxies"), Find(kids, "proxy-providers"))
  }

  /** The overlay of `buildRuntimeConfigWithMetadata`, on the pairs of the root. */
  function Overlaid(t: Text, kids: seq<Tree>, fd: int, servers: seq<string>): seq<Tree> {
    var tunned := WithTun(t, kids, fd);
    WithDns(t, tunned, HostsOf(t, tunned), servers)
  }

  // ----- Whole pairs ------------------------------------------------------------------------

  /** Every mapping below has whole pairs, as a parser leaves it. */
  ghost predicate Whole(tree: Tree) {
    (tree.kind.Mapping? ==> |tree.kids| % 2 == 0) && forall i | 0 <= i < |tree.kids| :: Whole(tree.kids[i])
  }

  ghost predicate WholePairs(kids: seq<Tree>) {
    |kids| % 2 == 0 && forall i | 0 <= i < |kids| :: Whole(kids[i])
  }

  lemma {:induction false} FindPut(kids: seq<Tree>, key: string, v: Tree, other: string)
    requires |kids| % 2 == 0
    ensures Find(Put(kids, key, v), other) == if other == key then Some(v) else Find(kids, other)
    ensures |Put(kids, key, v)| % 2 == 0
  {
    if kids == [] {
      assert Put(kids, key, v) == [KeyNode(key), v];
      assert Put(kids, key, v)[2..] == [];
    } else {
      FindPut(kids[2..], key, v, other);
      if kids[0].value == key {
        assert Put(kids, key, v)[2..] == kids[2..];
      } else {
        assert Put(kids, key, v)[2..] == Put(kids[2..], key, v);
      }
    }
  }

  lemma {:induction false} PutWhole(kids: seq<Tree>, key: string, v: Tree)
    requires WholePairs(kids) && Whole(v)
    ensures WholePairs(Put(kids, key, v))
  {
    if kids == [] {
      assert Whole(KeyNode(key));
    } else if kids[0].value != key {
      PutWhole(kids[2..], key, v);
    }
  }

  lemma {:induction false} FindWhole(kids: seq<Tree>, key: string)
    requires WholePairs(kids)
    ensures HasKey(kids, key) ==> Whole(Find(kids, key).value)
    ensures WholePairs(Ensured(Find(kids, key)).kids)
  {
    if kids != [] && kids[0].value != key {
      FindWhole(kids[2..], key);
    }
  }

  /** Merging keeps whole pairs, so every merged config can be overlaid. */
  lemma {:induction false} MergeKeepsWhole(kids: seq<Tree>, patch: seq<Tree>)
    requires WholePairs(kids) && WholePairs(patch)
    ensures WholePairs(Merged(kids, patch))
    decreases patch
  {
    if patch == [] {
    } else {
      var key, p := patch[0].value, patch[1];
      var current := Find(kids, key);
      if Skipped(key) {
        MergeKeepsWhole(kids, patch[2..]);
      } else {
        FindWhole(kids, key);
        if current.Some? && current.value.kind.Mapping? && p.kind.Mapping? {
          MergeKeepsWhole(current.value.kids, p.kids);
        }
        assert Whole(Combined(current, p));
        PutWhole(kids, key, Combined(current, p));
        MergeKeepsWhole(Put(kids, key, Combined(current, p)), patch[2..]);
      }
    }
  }

  // ----- The tun section --------------------------------------------------------------------

  lemma FindFill(kids: seq<Tree>, key: string, v: Tree, other: string)
    requires |kids| % 2 == 0
    ensures Find(Fill(kids, key, v), other) == if other == key && !HasKey(kids, key) then Some(v) else Find(kids, other)
    ensures |Fill(kids, key, v)| % 2 == 0
  {
    FindPut(kids, key, v, other);
  }

  /** The value the overlay forces on a key of the tun section. */
  function ForcedValue(key: string, fd: string): Option<Tree> {
    if key == "mtu" then Some(Leaf("!!int", TUN_MTU))
    else if key == "auto-detect-interface" || key == "auto-route" then Some(Leaf("!!bool", "false"))
    else if key == "file-descriptor" then Some(Leaf("!!int", fd))
    else if key == "enable" then Some(Leaf("!!bool", "true"))
    else None
  }

  /** The value the overlay gives a key of the tun section that is absent. */
  function DefaultValue(key: string, ipv6: bool): Option<Tree> {
    if key == "stack" then Some(Leaf("!!str", TUN_STACK))
    else if key == "dns-hijack" then Some(TextList([TUN_DNS]))
    else if key == "inet6-address" && ipv6 then Some(TextList([TUN_IPV6_ADDRESS]))
    else None
  }

  lemma FindForced(kids: seq<Tree>, fd: string, key: string)
    requires |kids| % 2 == 0
    ensures Find(ForcedTun(kids, fd), key)
         == if ForcedValue(key, fd).Some? then ForcedValue(key, fd) else Find(kids, key)
    ensures |ForcedTun(kids, fd)| % 2 == 0
  {
    var enabled := Put(kids, "enable", Leaf("!!bool", "true"));
    var attached := Put(enabled, "file-descriptor", Leaf("!!int", fd));
    var unrouted := Put(attached, "auto-route", Leaf("!!bool", "false"));
    var undetected := Put(unrouted, "auto-detect-interface", Leaf("!!bool", "false"));
    FindPut(kids, "enable", Leaf("!!bool", "true"), key);
    FindPut(enabled, "file-descriptor", Leaf("!!int", fd), key);
    FindPut(attached, "auto-route", Leaf("!!bool", "false"), key);
    FindPut(unrouted, "auto-detect-interface", Leaf("!!bool", "false"), key);
    FindPut(undetected, "mtu", Leaf("!!int", TUN_MTU), key);
  }

  lemma FindFilled(kids: seq<Tree>, ipv6: bool, key: string)
    requires |kids| % 2 == 0
    ensures Find(FilledTun(kids, ipv6), key)
         == if HasKey(kids, key) then Find(kids, key) else DefaultValue(key, ipv6)
    ensures |FilledTun(kids, ipv6)| % 2 == 0
  {
    var stacked := Fill(kids, "stack", Leaf("!!str", TUN_STACK));
    var hijacked := Fill(stacked, "dns-hijack", TextList([TUN_DNS]));
    FindFill(kids, "stack", Leaf("!!str", TUN_STACK), key);
    FindFill(stacked, "dns-hijack", TextList([TUN_DNS]), key);
    FindFill(hijacked, "inet6-address", TextList([TUN_IPV6_ADDRESS]), key);
  }

  /** Every key of the tun section: forced, kept, or filled because it was absent. */
  lemma {:induction false} TunValues(kids: seq<Tree>, fd: string, ipv6: bool, key: string)
    requires |kids| % 2 == 0
    ensures Find(FilledTun(ForcedTun(kids, fd), ipv6), key) ==
              if ForcedValue(key, fd).Some? then ForcedValue(key, fd)
              else if HasKey(kids, key) then Find(kids, key)
              else DefaultValue(key, ipv6)
  {
    FindForced(kids, fd, key);
    FindFilled(ForcedTun(kids, fd), ipv6, key);
  }

  lemma TextOfOne(value: string)
    ensures TextList([value]) == Tree(Sequence, "", "", [Leaf("!!str", value)])
  {
    assert TextList([value]).kids == [Leaf("!!str", value)];
  }

  /** The tun section gets an IPv6 address if and only if it has none and the config says `ipv6: true`. */
  lemma Ipv6Exactly(t: Text, kids: seq<Tree>, fd: int, flag: Option<Tree>)
    requires WholePairs(kids) && Find(kids, "ipv6") == flag
    ensures var was := Find(Ensured(Find(kids, "tun")).kids, "inet6-address");
            var now := Find(TunTree(t, kids, fd).kids, "inet6-address");
            if was.Some? then now == was
            else if flag.Some? && flag.value.kind == Scalar && flag.value.value == "true"
            then now == Some(Tree(Sequence, "", "", [Tree(Scalar, "!!str", "fdfe:dcbe:9876::1/126", [])]))
            else now == None
  {
    TextOfOne(TUN_IPV6_ADDRESS);
    FindWhole(kids, "tun");
    TunValues(Ensured(Find(kids, "tun")).kids, t.decimal(fd), Flag(flag), "inet6-address");
  }

  lemma ForcedAgain(kids: seq<Tree>, fd: string)
    requires forall key | ForcedValue(key, fd).Some? :: Find(kids, key) == ForcedValue(key, fd)
    ensures ForcedTun(kids, fd) == kids
  {
    assert ForcedValue("enable", fd) == Some(Leaf("!!bool", "true"));
    PutSame(kids, "enable", Leaf("!!bool", "true"));
    assert ForcedValue("file-descriptor", fd) == Some(Leaf("!!int", fd));
    PutSame(kids, "file-descriptor", Leaf("!!int", fd));
    assert ForcedValue("auto-route", fd) == Some(Leaf("!!bool", "false"));
    PutSame(kids, "auto-route", Leaf("!!bool", "false"));
    assert ForcedValue("auto-detect-interface", fd) == Some(Leaf("!!bool", "false"));
    PutSame(kids, "auto-detect-interface", Leaf("!!bool", "false"));
    assert ForcedValue("mtu", fd) == Some(Leaf("!!int", TUN_MTU));
    PutSame(kids, "mtu", Leaf("!!int", TUN_MTU));
    assert AttachedTun(kids, fd) == kids;
  }

  lemma FilledAgain(kids: seq<Tree>, ipv6: bool)
    requires forall key | DefaultValue(key, ipv6).Some? :: HasKey(kids, key)
    ensures FilledTun(kids, ipv6) == kids
  {
    assert DefaultValue("stack", ipv6).Some?;
    assert DefaultValue("dns-hijack", ipv6).Some?;
    assert ipv6 ==> DefaultValue("inet6-address", ipv6).Some?;
  }

  lemma TunTwice(kids: seq<Tree>, fd: string, ipv6: bool)
    requires |kids| % 2 == 0
    ensures var once := FilledTun(ForcedTun(kids, fd), ipv6); FilledTun(ForcedTun(once, fd), ipv6) == once
  {
    var once := FilledTun(ForcedTun(kids, fd), ipv6);
    forall key ensures ForcedValue(key, fd).Some? ==> Find(once, key) == ForcedValue(key, fd) {
      TunValues(kids, fd, ipv6, key);
    }
    forall key ensures DefaultValue(key, ipv6).Some? ==> HasKey(once, key) {
      TunValues(kids, fd, ipv6, key);
    }
    ForcedAgain(once, fd);
    FilledAgain(once, ipv6);
  }

  // ----- The name server policy -------------------------------------------------------------

  lemma {:induction false} MissingHosts(t: Text, policy: seq<Tree>, hosts: seq<string>, host: string)
    ensures host in Missing(t, policy, hosts) <==> host in hosts && !HasPolicy(t, policy, host)
  {
    if hosts == [] {
    } else {
      MissingHosts(t, policy, hosts[1..], host);
    }
  }

  /** Some key of the policy mapping is a scalar that covers the host. */
  ghost predicate Covered(t: Text, policy: seq<Tree>, host: string) {
    exists i | 0 <= i < |policy| - 1 && i % 2 == 0 ::
      policy[i].kind == Scalar && t.covers(policy[i].value, host)
  }

  lemma {:induction false} PolicyCovers(t: Text, policy: seq<Tree>, host: string)
    ensures HasPolicy(t, policy, host) <==> Covered(t, policy, host)
  {
    if |policy| >= 2 {
      var rest := policy[2..];
      PolicyCovers(t, rest, host);
      if Covered(t, rest, host) {
        var i :| 0 <= i < |rest| - 1 && i % 2 == 0 && rest[i].kind == Scalar && t.covers(rest[i].value, host);
        assert policy[i + 2] == rest[i] && (i + 2) % 2 == 0;
      }
      if Covered(t, policy, host) {
        var i :| 0 <= i < |policy| - 1 && i % 2 == 0 && policy[i].kind == Scalar && t.covers(policy[i].value, host);
        assert i > 0 ==> rest[i - 2] == policy[i] && (i - 2) % 2 == 0;
      }
    }
  }

  lemma {:induction false} MissingConcat(t: Text, policy: seq<Tree>, a: seq<string>, b: seq<string>)
    ensures Missing(t, policy, a + b) == Missing(t, policy, a) + Missing(t, policy, b)
  {
    if a == [] {
      assert a + b == b;
    } else {
      assert (a + b)[1..] == a[1..] + b;
      MissingConcat(t, policy, a[1..], b);
    }
  }

  /** The hosts to be injected, in their order: each one is, unless the policy covers it. */
  lemma MissingExactly(t: Text, policy: seq<Tree>, before: seq<string>, host: string, after: seq<string>)
    ensures Missing(t, policy, before + [host] + after)
         == Missing(t, policy, before) + (if Covered(t, policy, host) then [] else [host]) + Missing(t, policy, after)
    ensures Missing(t, policy, []) == []
  {
    PolicyCovers(t, policy, host);
    MissingConcat(t, policy, before + [host], after);
    MissingConcat(t, policy, before, [host]);
    assert [host][1..] == [];
  }

  /** The hosts reported for tracking: the control hosts that the policy does not cover, or none if it is no mapping. */
  lemma ReportedExactly(t: Text, kids: seq<Tree>, host: string)
    ensures var dns, reported := Find(kids, "dns"), ReportedHosts(t, kids);
            var control := t.hosts(Find(kids, "proxies"), Find(kids, "proxy-providers"));
            var section := if dns.Some? && dns.value.kind == Mapping then dns.value.kids else [];
            var policy := Find(section, "nameserver-policy");
            && (host in reported <==>
                  && host in control
                  && (policy.Some? ==> policy.value.kind == Mapping && !Covered(t, policy.value.kids, host)))
            && (policy.Some? && policy.value.kind == Mapping ==> reported == Missing(t, policy.value.kids, control))
            && (policy.None? ==> reported == control)
  {
    var dns := Ensured(Find(kids, "dns")).kids;
    var policy, control := Find(dns, "nameserver-policy"), HostsOf(t, kids);
    MissingHosts(t, Ensured(policy).kids, control, host);
    PolicyCovers(t, Ensured(policy).kids, host);
    AllMissing(t, control);
  }

  lemma {:induction false} AllMissing(t: Text, hosts: seq<string>)
    ensures Missing(t, [], hosts) == hosts
  {
    if hosts == [] {
    } else {
      AllMissing(t, hosts[1..]);
    }
  }

  /** The servers of an injected policy, in their order. */
  lemma UrlsExactly(t: Text, servers: seq<string>, i: nat)
    requires i < |servers|
    ensures var list := Urls(t, servers);
            && list.kind == Sequence && |list.kids| == |servers|
            && list.kids[i] == Tree(Scalar, "!!str", t.url(servers[i]), [])
  {
  }

  lemma {:induction false} FindPutEach(kids: seq<Tree>, hosts: seq<string>, v: Tree, key: string)
    requires |kids| % 2 == 0
    ensures Find(PutEach(kids, hosts, v), key) == if key in hosts then Some(v) else Find(kids, key)
    ensures |PutEach(kids, hosts, v)| % 2 == 0
    decreases hosts
  {
    if hosts == [] {
    } else {
      FindPut(kids, hosts[0], v, key);
      FindPutEach(Put(kids, hosts[0], v), hosts[1..], v, key);
    }
  }

  lemma {:induction false} PutEachSame(kids: seq<Tree>, hosts: seq<string>, v: Tree)
    requires forall host | host in hosts :: Find(kids, host) == Some(v)
    ensures PutEach(kids, hosts, v) == kids
  {
    if hosts == [] {
    } else {
      PutSame(kids, hosts[0], v);
      PutEachSame(kids, hosts[1..], v);
    }
  }

  /** Putting a value keeps every policy key, so a host that was covered stays covered. */
  lemma {:induction false} PutKeepsPolicies(t: Text, policy: seq<Tree>, key: string, v: Tree, host: string)
    requires |policy| % 2 == 0 && HasPolicy(t, policy, host)
    ensures HasPolicy(t, Put(policy, key, v), host)
  {
    if policy[0].value == key {
      assert Put(policy, key, v)[2..] == policy[2..];
    } else {
      assert Put(policy, key, v)[2..] == Put(policy[2..], key, v);
      if HasPolicy(t, policy[2..], host) {
        PutKeepsPolicies(t, policy[2..], key, v, host);
      }
    }
  }

  lemma {:induction false} PutEachKeepsPolicies(t: Text, policy: seq<Tree>, hosts: seq<string>, v: Tree, host: string)
    requires |policy| % 2 == 0 && HasPolicy(t, policy, host)
    ensures HasPolicy(t, PutEach(policy, hosts, v), host)
    decreases hosts
  {
    if hosts == [] {
    } else {
      PutKeepsPolicies(t, policy, hosts[0], v, host);
      FindPut(policy, hosts[0], v, hosts[0]);
      PutEachKeepsPolicies(t, Put(policy, hosts[0], v), hosts[1..], v, host);
    }
  }

  /**
   * Every control host is spoken for after the injection: its policy was there before and is
   * still there, or its own entry names exactly the current servers. Other entries stay.
   */
  lemma {:induction false} EveryHostIsSpokenFor(t: Text, policy: seq<Tree>, hosts: seq<string>,
          servers: seq<string>, key: string)
    requires |policy| % 2 == 0
    ensures var spoken := Spoken(t, policy, hosts, servers);
            if key in hosts && !HasPolicy(t, policy, key) then Find(spoken, key) == Some(Urls(t, servers))
            else Find(spoken, key) == Find(policy, key) && (HasPolicy(t, policy, key) ==> HasPolicy(t, spoken, key))
  {
    var missing := Missing(t, policy, hosts);
    MissingHosts(t, policy, hosts, key);
    FindPutEach(policy, missing, Urls(t, servers), key);
    if HasPolicy(t, policy, key) {
      PutEachKeepsPolicies(t, policy, missing, Urls(t, servers), key);
    }
  }

  lemma {:induction false} PutAbsent(kids: seq<Tree>, key: string, v: Tree)
    requires |kids| % 2 == 0 && !HasKey(kids, key)
    ensures Put(kids, key, v) == kids + [KeyNode(key), v]
  {
    if kids == [] {
    } else {
      PutAbsent(kids[2..], key, v);
    }
  }

  lemma {:induction false} PutEachExtends(kids: seq<Tree>, hosts: seq<string>, v: Tree)
    requires |kids| % 2 == 0
    requires forall host | host in hosts :: !HasKey(kids, host) || Find(kids, host) == Some(v)
    ensures kids <= PutEach(kids, hosts, v)
    decreases hosts
  {
    if hosts == [] {
    } else {
      var next := Put(kids, hosts[0], v);
      if HasKey(kids, hosts[0]) {
        PutSame(kids, hosts[0], v);
      } else {
        PutAbsent(kids, hosts[0], v);
      }
      forall host | host in hosts[1..] ensures !HasKey(next, host) || Find(next, host) == Some(v) {
        FindPut(kids, hosts[0], v, host);
      }
      FindPut(kids, hosts[0], v, hosts[0]);
      PutEachExtends(next, hosts[1..], v);
    }
  }

  lemma {:induction false} FindInPrefix(kids: seq<Tree>, more: seq<Tree>, key: string)
    requires |kids| % 2 == 0 && kids <= more && HasKey(kids, key)
    ensures Find(more, key) == Find(kids, key)
  {
    if kids[0].value != key {
      FindInPrefix(kids[2..], more[2..], key);
    }
  }

  /**
   * The policy list keeps all its entries and only grows at its end, exactly when no host without
   * a policy is spelled as one of its keys with other servers.
   */
  lemma {:induction false} PolicyOnlyGrows(t: Text, policy: seq<Tree>, hosts: seq<string>, servers: seq<string>)
    requires |policy| % 2 == 0
    ensures policy <= Spoken(t, policy, hosts, servers)
       <==> forall host | host in hosts && !HasPolicy(t, policy, host) ::
              !HasKey(policy, host) || Find(policy, host) == Some(Urls(t, servers))
  {
    var missing, v := Missing(t, policy, hosts), Urls(t, servers);
    var spoken := Spoken(t, policy, hosts, servers);
    forall host ensures host in missing <==> host in hosts && !HasPolicy(t, policy, host) {
      MissingHosts(t, policy, hosts, host);
    }
    if forall host | host in missing :: !HasKey(policy, host) || Find(policy, host) == Some(v) {
      PutEachExtends(policy, missing, v);
    }
    if policy <= spoken {
      forall host | host in missing && HasKey(policy, host) ensures Find(policy, host) == Some(v) {
        FindInPrefix(policy, spoken, host);
        FindPutEach(policy, missing, v, host);
      }
    }
  }

  lemma {:induction false} OwnKeyCovers(t: Text, policy: seq<Tree>, host: string)
    requires t.covers(host, host) && HasKey(policy, host)
    requires forall i | 0 <= i < |policy| && i % 2 == 0 :: policy[i].kind.Scalar?
    ensures HasPolicy(t, policy, host)
  {
    if policy[0].value != host {
      forall i | 0 <= i < |policy[2..]| && i % 2 == 0 ensures policy[2..][i].kind.Scalar? {
        assert policy[2..][i] == policy[i + 2] && (i + 2) % 2 == 0;
      }
      OwnKeyCovers(t, policy[2..], host);
    }
  }

  /** Where keys are scalars and a domain covers itself, no entry is ever altered or moved. */
  lemma EntriesAreNeverAltered(t: Text, policy: seq<Tree>, hosts: seq<string>, servers: seq<string>)
    requires |policy| % 2 == 0
    requires forall i | 0 <= i < |policy| && i % 2 == 0 :: policy[i].kind.Scalar?
    requires forall host | host in hosts :: t.covers(host, host)
    ensures policy <= Spoken(t, policy, hosts, servers)
  {
    forall host | host in hosts && !HasPolicy(t, policy, host) ensures !HasKey(policy, host) {
      if HasKey(policy, host) {
        OwnKeyCovers(t, policy, host);
      }
    }
    PolicyOnlyGrows(t, policy, hosts, servers);
  }

  /** An input at which one is: a host no pattern can cover, with an entry under its own name. */
  lemma EntryCanBeAltered(t: Text, policy: seq<Tree>)
    requires !t.covers("a..b", "a..b")
    requires policy == [KeyNode("a..b"), Leaf("!!str", "user")]
    ensures !(policy <= Spoken(t, policy, ["a..b"], ["1.1.1.1"]))
  {
    var host := "a..b";
    assert host in [host] && !HasPolicy(t, policy[2..], host);
    assert Find(policy, host) == Some(Leaf("!!str", "user"));
    PolicyOnlyGrows(t, policy, [host], ["1.1.1.1"]);
  }

  lemma SpokenTwice(t: Text, policy: seq<Tree>, hosts: seq<string>, servers: seq<string>)
    requires |policy| % 2 == 0
    ensures var once := Spoken(t, policy, hosts, servers); Spoken(t, once, hosts, servers) == once
  {
    var once := Spoken(t, policy, hosts, servers);
    forall host | host in Missing(t, once, hosts) ensures Find(once, host) == Some(Urls(t, servers)) {
      MissingHosts(t, once, hosts, host);
      EveryHostIsSpokenFor(t, policy, hosts, servers, host);
    }
    PutEachSame(once, Missing(t, once, hosts), Urls(t, servers));
  }

  lemma InjectedTwice(t: Text, dns: seq<Tree>, hosts: seq<string>, servers: seq<string>)
    requires WholePairs(dns)
    ensures var once := Injected(t, dns, hosts, servers); Injected(t, once, hosts, servers) == once
  {
    var key := "nameserver-policy";
    var policy := Ensured(Find(dns, key));
    var once := Injected(t, dns, hosts, servers);
    FindWhole(dns, key);
    if once != dns {
      var spoken := policy.(kids := Spoken(t, policy.kids, hosts, servers));
      FindPut(dns, key, spoken, key);
      SpokenTwice(t, policy.kids, hosts, servers);
      PutSame(once, key, spoken);
    }
  }

  // ----- Overlaying keeps whole pairs -----------------------------------------------------------

  lemma TunnedIsWhole(t: Text, kids: seq<Tree>, fd: int)
    requires WholePairs(kids)
    ensures WholePairs(WithTun(t, kids, fd))
  {
    FindWhole(kids, "tun");
    var tun := Ensured(Find(kids, "tun")).kids;
    ForcedIsWhole(tun, t.decimal(fd));
    FilledIsWhole(ForcedTun(tun, t.decimal(fd)), Flag(Find(kids, "ipv6")));
    PutWhole(kids, "tun", TunTree(t, kids, fd));
  }

  lemma ForcedIsWhole(kids: seq<Tree>, fd: string)
    requires WholePairs(kids)
    ensures WholePairs(ForcedTun(kids, fd))
  {
    var enabled := Put(kids, "enable", Leaf("!!bool", "true"));
    PutWhole(kids, "enable", Leaf("!!bool", "true"));
    PutWhole(enabled, "file-descriptor", Leaf("!!int", fd));
    var attached := AttachedTun(kids, fd);
    PutWhole(attached, "auto-route", Leaf("!!bool", "false"));
    var unrouted := Put(attached, "auto-route", Leaf("!!bool", "false"));
    PutWhole(unrouted, "auto-detect-interface", Leaf("!!bool", "false"));
    PutWhole(Put(unrouted, "auto-detect-interface", Leaf("!!bool", "false")), "mtu", Leaf("!!int", TUN_MTU));
  }

  lemma FillIsWhole(kids: seq<Tree>, key: string, v: Tree)
    requires WholePairs(kids) && Whole(v)
    ensures WholePairs(Fill(kids, key, v))
  {
    PutWhole(kids, key, v);
  }

  lemma FilledIsWhole(kids: seq<Tree>, ipv6: bool)
    requires WholePairs(kids)
    ensures WholePairs(FilledTun(kids, ipv6))
  {
    var stacked := Fill(kids, "stack", Leaf("!!str", TUN_STACK));
    FillIsWhole(kids, "stack", Leaf("!!str", TUN_STACK));
    FillIsWhole(stacked, "dns-hijack", TextList([TUN_DNS]));
    FillIsWhole(Fill(stacked, "dns-hijack", TextList([TUN_DNS])), "inet6-address", TextList([TUN_IPV6_ADDRESS]));
  }

  // ----- The whole overlay --------------------------------------------------------------------

  lemma FindWithTun(t: Text, kids: seq<Tree>, fd: int, key: string)
    requires WholePairs(kids)
    ensures Find(WithTun(t, kids, fd), key) == if key == "tun" then Some(TunTree(t, kids, fd)) else Find(kids, key)
    ensures |WithTun(t, kids, fd)| % 2 == 0
  {
    FindPut(kids, "tun", TunTree(t, kids, fd), key);
  }

  /**
   * Every top-level key of the result: the tun section of `TunValues`, the dns section of
   * `DnsValues` for the control hosts of the merged config, and no other key is touched.
   */
  lemma OverlayValues(t: Text, kids: seq<Tree>, fd: int, servers: seq<string>, key: string)
    requires WholePairs(kids)
    ensures Find(Overlaid(t, kids, fd, servers), key) ==
              if key == "tun" then Some(TunTree(t, kids, fd))
              else if key == "dns"
              then Some(DnsTree(t, kids, t.hosts(Find(kids, "proxies"), Find(kids, "proxy-providers")), servers))
              else Find(kids, key)
  {
    var tunned := WithTun(t, kids, fd);
    FindWithTun(t, kids, fd, key);
    FindWithTun(t, kids, fd, "dns");
    FindWithTun(t, kids, fd, "proxies");
    FindWithTun(t, kids, fd, "proxy-providers");
    FindPut(tunned, "dns", DnsTree(t, tunned, HostsOf(t, tunned), servers), key);
  }

  /** Every key of the dns section other than the policy: the range is forced, the rest stays. */
  lemma DnsValues(t: Text, kids: seq<Tree>, hosts: seq<string>, servers: seq<string>, key: string)
    requires WholePairs(kids) && key != "nameserver-policy"
    ensures Find(DnsTree(t, kids, hosts, servers).kids, key) ==
              if key == "fake-ip-range" then Some(Leaf("!!str", FAKE_IP_RANGE))
              else Find(Ensured(Find(kids, "dns")).kids, key)
  {
    FindWhole(kids, "dns");
    FindPut(Ensured(Find(kids, "dns")).kids, "fake-ip-range", Leaf("!!str", FAKE_IP_RANGE), key);
    var policy := Ensured(Find(RangedDns(kids), "nameserver-policy"));
    FindPut(RangedDns(kids), "nameserver-policy", policy.(kids := Spoken(t, policy.kids, hosts, servers)), key);
  }

  /** The policy of the dns section: left alone when it is no mapping, otherwise as `Spoken` has it. */
  lemma PolicyValue(t: Text, kids: seq<Tree>, hosts: seq<string>, servers: seq<string>)
    requires WholePairs(kids)
    ensures var was := Find(Ensured(Find(kids, "dns")).kids, "nameserver-policy");
            Find(DnsTree(t, kids, hosts, servers).kids, "nameserver-policy") ==
              if (was.Some? && !was.value.kind.Mapping?) || servers == [] || Missing(t, Ensured(was).kids, hosts) == []
              then was
              else Some(Ensured(was).(kids := Spoken(t, Ensured(was).kids, hosts, servers)))
  {
    var dns, key := Ensured(Find(kids, "dns")).kids, "nameserver-policy";
    FindWhole(kids, "dns");
    FindPut(dns, "fake-ip-range", Leaf("!!str", FAKE_IP_RANGE), key);
    var policy := Ensured(Find(RangedDns(kids), key));
    FindPut(RangedDns(kids), key, policy.(kids := Spoken(t, policy.kids, hosts, servers)), key);
  }

  lemma {:induction false} PutKeepsOrder(kids: seq<Tree>, key: string, v: Tree, i: nat)
    requires |kids| % 2 == 0 && i < |kids| && i % 2 == 0
    ensures i < |Put(kids, key, v)| && Put(kids, key, v)[i] == kids[i]
  {
    if kids[0].value != key && i > 0 {
      PutKeepsOrder(kids[2..], key, v, i - 2);
      assert kids[2..][i - 2] == kids[i];
    }
  }

  /** Every top-level key node keeps its place. */
  lemma OverlayKeepsOrder(t: Text, kids: seq<Tree>, fd: int, servers: seq<string>, i: nat)
    requires WholePairs(kids) && i < |kids| && i % 2 == 0
    ensures i < |Overlaid(t, kids, fd, servers)| && Overlaid(t, kids, fd, servers)[i] == kids[i]
  {
    PutKeepsOrder(kids, "tun", TunTree(t, kids, fd), i);
    var tunned := WithTun(t, kids, fd);
    FindWithTun(t, kids, fd, "tun");
    PutKeepsOrder(tunned, "dns", DnsTree(t, tunned, HostsOf(t, tunned), servers), i);
  }

  lemma TunAgain(t: Text, kids: seq<Tree>, once: seq<Tree>, fd: int)
    requires WholePairs(kids) && Find(once, "ipv6") == Find(kids, "ipv6")
    requires Find(once, "tun") == Some(TunTree(t, kids, fd))
    ensures WithTun(t, once, fd) == once
  {
    FindWhole(kids, "tun");
    TunTwice(Ensured(Find(kids, "tun")).kids, t.decimal(fd), Flag(Find(kids, "ipv6")));
    PutSame(once, "tun", TunTree(t, kids, fd));
  }

  lemma DnsTwice(t: Text, kids: seq<Tree>, once: seq<Tree>, hosts: seq<string>, servers: seq<string>)
    requires WholePairs(kids) && Find(once, "dns") == Some(DnsTree(t, kids, hosts, servers))
    ensures WithDns(t, once, hosts, servers) == once
  {
    var range := Leaf("!!str", FAKE_IP_RANGE);
    FindWhole(kids, "dns");
    PutWhole(Ensured(Find(kids, "dns")).kids, "fake-ip-range", range);
    DnsValues(t, kids, hosts, servers, "fake-ip-range");
    PutSame(DnsTree(t, kids, hosts, servers).kids, "fake-ip-range", range);
    InjectedTwice(t, RangedDns(kids), hosts, servers);
    PutSame(once, "dns", DnsTree(t, kids, hosts, servers));
  }

  /** For the same descriptor and servers, overlaying again changes nothing. */
  lemma OverlayIsIdempotent(t: Text, kids: seq<Tree>, fd: int, servers: seq<string>)
    requires WholePairs(kids)
    ensures var once := Overlaid(t, kids, fd, servers); Overlaid(t, once, fd, servers) == once
  {
    var once := Overlaid(t, kids, fd, servers);
    OverlayValues(t, kids, fd, servers, "ipv6");
    OverlayValues(t, kids, fd, servers, "proxies");
    OverlayValues(t, kids, fd, servers, "proxy-providers");
    OverlayValues(t, kids, fd, servers, "tun");
    OverlayValues(t, kids, fd, servers, "dns");
    TunAgain(t, kids, once, fd);
    DnsTwice(t, kids, once, HostsOf(t, kids), servers);
  }
}
