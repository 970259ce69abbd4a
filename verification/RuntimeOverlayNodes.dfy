/**
 * The overlay as the core performs it: writing into the nodes of the merged config in place
 * (core/mobile/core.go).
 */
module RuntimeOverlayNodes {
  import opened Options
  import opened YamlMerge
  import opened YamlNode
  import opened RuntimeOverlay

  /** `setScalar`, `setBool` and `setInt`. */
  method SetLeaf(root: Node, key: string, tag: string, value: string)
    requires root.Valid()
    modifies root`content, root`tree, root`repr
    ensures root.Valid() && root.tree == old(root.tree).(kids := Put(old(root.tree.kids), key, Leaf(tag, value)))
    ensures old(root.repr) <= root.repr && fresh(root.repr - old(root.repr))
  {
    var leaf := new Node(Scalar, tag, value);
    var _ := root.SetNode(key, leaf);
  }

  /** `setSequence`. */
  method SetSequence(root: Node, key: string, values: seq<string>)
    requires root.Valid()
    modifies root`content, root`tree, root`repr
    ensures root.Valid() && root.tree == old(root.tree).(kids := Put(old(root.tree.kids), key, TextList(values)))
    ensures old(root.repr) <= root.repr && fresh(root.repr - old(root.repr))
  {
    var list := new Node(Sequence, "", "");
    for i := 0 to |values|
      invariant root.Valid() && unchanged(root)
      invariant list.Valid() && fresh(list) && fresh(list.repr)
      invariant list.tree == TextList(values[..i])
    {
      var leaf := new Node(Scalar, "!!str", values[i]);
      list.Adopt(leaf);
      assert TextList(values[..i + 1]).kids == TextList(values[..i]).kids + [Leaf("!!str", values[i])];
    }
    assert values[..|values|] == values;
    var _ := root.SetNode(key, list);
  }

  /** `ensureMapping`; the ghost says where in the content the mapping stands. */
  method EnsureMapping(root: Node, key: string) returns (node: Node, ghost at: nat)
    requires root.Valid() && |root.tree.kids| % 2 == 0
    modifies root`content, root`tree, root`repr
    ensures root.Valid()
    ensures at == Place(root.tree.kids, key) + 1
    ensures at < |root.content| && node == root.content[at]
    ensures node.tree == Ensured(Find(old(root.tree.kids), key))
    ensures root.tree == old(root.tree).(kids := Put(old(root.tree.kids), key, node.tree))
    ensures old(root.repr) <= root.repr && fresh(root.repr - old(root.repr))
  {
    var found, place := root.FindValue(key);
    if found != null && found.kind.Mapping? {
      PutSame(root.tree.kids, key, found.tree);
      return found, place;
    }
    assert Ensured(Find(root.tree.kids, key)) == Tree(Mapping, "", "", []);
    node, at := AddMapping(root, key);
  }

  /** `ensureMapping` where there is no mapping yet. */
  method AddMapping(root: Node, key: string) returns (node: Node, ghost at: nat)
    requires root.Valid() && |root.tree.kids| % 2 == 0
    modifies root`content, root`tree, root`repr
    ensures root.Valid()
    ensures at == Place(root.tree.kids, key) + 1
    ensures at < |root.content| && node == root.content[at]
    ensures node.tree == Tree(Mapping, "", "", [])
    ensures root.tree == old(root.tree).(kids := Put(old(root.tree.kids), key, node.tree))
    ensures old(root.repr) <= root.repr && fresh(root.repr - old(root.repr))
  {
    node := new Node(Mapping, "", "");
    at := root.SetNode(key, node);
  }

  /** Rewriting the mapping that was ensured is one write to its key. */
  lemma Rewritten(kids: seq<Tree>, key: string, node: Tree, v: Tree)
    requires |kids| % 2 == 0
    ensures var next := Put(kids, key, node);
            Place(next, key) + 1 < |next| && next[Place(next, key) + 1 := v] == Put(kids, key, v)
  {
    var next := Put(kids, key, node);
    FindPut(kids, key, node, key);
    PlacePuts(next, key, v);
    PutPut(kids, key, node, v);
  }

  lemma {:induction false} PutPut(kids: seq<Tree>, key: string, u: Tree, v: Tree)
    requires |kids| % 2 == 0
    ensures Put(Put(kids, key, u), key, v) == Put(kids, key, v)
  {
    if kids == [] {
      assert Put(kids, key, u) == [KeyNode(key), u] && Put(kids, key, v) == [KeyNode(key), v];
    } else if kids[0].value == key {
      assert Put(kids, key, u)[2..] == kids[2..];
    } else {
      PutPut(kids[2..], key, u, v);
      assert Put(kids, key, u)[2..] == Put(kids[2..], key, u);
    }
  }

  // ----- The tun section --------------------------------------------------------------------

  method AttachTun(tun: Node, fd: string)
    requires tun.Valid()
    modifies tun`content, tun`tree, tun`repr
    ensures tun.Valid() && tun.tree == old(tun.tree).(kids := AttachedTun(old(tun.tree.kids), fd))
    ensures old(tun.repr) <= tun.repr && fresh(tun.repr - old(tun.repr))
  {
    SetLeaf(tun, "enable", "!!bool", "true");
    SetLeaf(tun, "file-descriptor", "!!int", fd);
  }

  method ForceTun(tun: Node, fd: string)
    requires tun.Valid()
    modifies tun`content, tun`tree, tun`repr
    ensures tun.Valid() && tun.tree == old(tun.tree).(kids := ForcedTun(old(tun.tree.kids), fd))
    ensures old(tun.repr) <= tun.repr && fresh(tun.repr - old(tun.repr))
  {
    AttachTun(tun, fd);
    SetLeaf(tun, "auto-route", "!!bool", "false");
    SetLeaf(tun, "auto-detect-interface", "!!bool", "false");
    SetLeaf(tun, "mtu", "!!int", TUN_MTU);
  }

  method FillSequence(tun: Node, key: string, values: seq<string>)
    requires tun.Valid()
    modifies tun`content, tun`tree, tun`repr
    ensures tun.Valid() && tun.tree == old(tun.tree).(kids := Fill(old(tun.tree.kids), key, TextList(values)))
    ensures old(tun.repr) <= tun.repr && fresh(tun.repr - old(tun.repr))
  {
    var found, _ := tun.FindValue(key);
    if found == null {
      SetSequence(tun, key, values);
    }
  }

  method FillStack(tun: Node)
    requires tun.Valid()
    modifies tun`content, tun`tree, tun`repr
    ensures tun.Valid() && tun.tree == old(tun.tree).(kids := Fill(old(tun.tree.kids), "stack", Leaf("!!str",
            TUN_STACK)))
    ensures old(tun.repr) <= tun.repr && fresh(tun.repr - old(tun.repr))
  {
    var found, _ := tun.FindValue("stack");
    if found == null {
      SetLeaf(tun, "stack", "!!str", TUN_STACK);
    }
  }

  /** The writes to the tun section. */
  method WriteTun(tun: Node, fd: string, ipv6: bool)
    requires tun.Valid()
    modifies tun`content, tun`tree, tun`repr
    ensures tun.Valid() && tun.tree == old(tun.tree).(kids := FilledTun(ForcedTun(old(tun.tree.kids), fd), ipv6))
    ensures old(tun.repr) <= tun.repr && fresh(tun.repr - old(tun.repr))
  {
    ForceTun(tun, fd);
    FillStack(tun);
    FillSequence(tun, "dns-hijack", [TUN_DNS]);
    if ipv6 {
      FillSequence(tun, "inet6-address", [TUN_IPV6_ADDRESS]);
    }
  }

  /** `scalarBool(findValue(root, key))`. */
  method FindFlag(root: Node, key: string) returns (on: bool)
    requires root.Valid()
    ensures on == Flag(Find(root.tree.kids, key))
  {
    var found, _ := root.FindValue(key);
    on := found != null && found.kind.Scalar? && found.value == "true";
  }

  /** The tun section to write to, and whether the config asks for IPv6. */
  method EnsureTun(root: Node) returns (tun: Node, ghost at: nat, ipv6: bool)
    requires root.Valid() && |root.tree.kids| % 2 == 0
    modifies root`content, root`tree, root`repr
    ensures root.Valid()
    ensures at == Place(root.tree.kids, "tun") + 1
    ensures at < |root.content| && tun == root.content[at]
    ensures tun.tree == Ensured(Find(old(root.tree.kids), "tun"))
    ensures root.tree == old(root.tree).(kids := Put(old(root.tree.kids), "tun", tun.tree))
    ensures old(root.repr) <= root.repr && fresh(root.repr - old(root.repr))
    ensures ipv6 == Flag(Find(old(root.tree.kids), "ipv6"))
  {
    tun, at := EnsureMapping(root, "tun");
    FindPut(old(root.tree.kids), "tun", tun.tree, "ipv6");
    ipv6 := FindFlag(root, "ipv6");
  }

  method OverlayTun(t: Text, root: Node, fd: int)
    requires root.Valid() && |root.tree.kids| % 2 == 0
    modifies root.repr
    ensures root.Valid() && root.tree == old(root.tree).(kids := WithTun(t, old(root.tree.kids), fd))
    ensures old(root.repr) <= root.repr && fresh(root.repr - old(root.repr))
  {
    var tun, at, ipv6 := EnsureTun(root);
    Rewritten(old(root.tree.kids), "tun", tun.tree, TunTree(t, old(root.tree.kids), fd));
    WriteTun(tun, t.decimal(fd), ipv6);
    assert tun.tree == TunTree(t, old(root.tree.kids), fd);
    root.Refresh(at);
  }

  // ----- The dns section --------------------------------------------------------------------

  /** `hasDNSPolicyForHost`. */
  method HasDnsPolicy(t: Text, policy: Node, host: string) returns (has: bool)
    requires policy.Valid()
    ensures has == HasPolicy(t, policy.tree.kids, host)
  {
    var i := 0;
    while i + 1 < |policy.content|
      invariant 0 <= i <= |policy.content|
      invariant HasPolicy(t, policy.tree.kids, host) == HasPolicy(t, policy.tree.kids[i..], host)
    {
      assert policy.tree.kids[i..][2..] == policy.tree.kids[i + 2..];
      var key := policy.content[i];
      if key.kind.Scalar? && t.covers(key.value, host) {
        return true;
      }
      i := i + 2;
    }
    return false;
  }

  /** The hosts of `injectAndroidTailscaleDNSPolicyWithServers` that no policy covers. */
  method MissingOf(t: Text, policy: Node?, hosts: seq<string>) returns (missing: seq<string>)
    requires policy != null ==> policy.Valid()
    ensures missing == Missing(t, if policy == null then [] else policy.tree.kids, hosts)
  {
    ghost var kids := if policy == null then [] else policy.tree.kids;
    missing := [];
    for i := 0 to |hosts|
      invariant missing + Missing(t, kids, hosts[i..]) == Missing(t, kids, hosts)
    {
      MissingOne(t, kids, missing, hosts, i);
      var has := false;
      if policy != null {
        has := HasDnsPolicy(t, policy, hosts[i]);
      }
      if !has {
        missing := missing + [hosts[i]];
      }
    }
  }

  lemma MissingOne(t: Text, kids: seq<Tree>, before: seq<string>, hosts: seq<string>, i: nat)
    requires i < |hosts|
    ensures before + Missing(t, kids, hosts[i..])
         == (if HasPolicy(t, kids, hosts[i]) then before else before + [hosts[i]]) + Missing(t, kids, hosts[i + 1..])
  {
    assert hosts[i..][1..] == hosts[i + 1..];
  }

  /** The entries for these hosts, each with the servers. */
  method SpeakFor(t: Text, policy: Node, hosts: seq<string>, servers: seq<string>)
    requires policy.Valid()
    modifies policy`content, policy`tree, policy`repr
    ensures policy.Valid()
    ensures policy.tree == old(policy.tree).(kids := PutEach(old(policy.tree.kids), hosts, Urls(t, servers)))
    ensures old(policy.repr) <= policy.repr && fresh(policy.repr - old(policy.repr))
  {
    var nameservers := NameserverUrls(t, servers);
    for i := 0 to |hosts|
      invariant policy.Valid() && old(policy.repr) <= policy.repr && fresh(policy.repr - old(policy.repr))
      invariant policy.tree == old(policy.tree).(kids := policy.tree.kids)
      invariant PutEach(policy.tree.kids, hosts[i..], Urls(t, servers))
             == PutEach(old(policy.tree.kids), hosts, Urls(t, servers))
    {
      assert hosts[i..][1..] == hosts[i + 1..];
      SetSequence(policy, hosts[i], nameservers);
    }
  }

  /** `androidPhysicalNameserverURLs`. */
  method NameserverUrls(t: Text, servers: seq<string>) returns (nameservers: seq<string>)
    ensures TextList(nameservers) == Urls(t, servers)
  {
    nameservers := [];
    for i := 0 to |servers|
      invariant nameservers == seq(i, j requires 0 <= j < i => t.url(servers[j]))
    {
      nameservers := nameservers + [t.url(servers[i])];
    }
  }

  /** `injectAndroidTailscaleDNSPolicyWithServers`, and the hosts it reports for tracking. */
  method Inject(t: Text, dns: Node, hosts: seq<string>, servers: seq<string>) returns (injected: seq<string>)
    requires dns.Valid() && |dns.tree.kids| % 2 == 0
    modifies dns.repr
    ensures dns.Valid() && dns.tree == old(dns.tree).(kids := Injected(t, old(dns.tree.kids), hosts, servers))
    ensures old(dns.repr) <= dns.repr && fresh(dns.repr - old(dns.repr))
    ensures injected == Reported(t, old(dns.tree.kids), hosts)
  {
    var policy, _ := dns.FindValue("nameserver-policy");
    if policy != null && !policy.kind.Mapping? {
      return [];
    }
    injected := MissingOf(t, policy, hosts);
    if injected == [] || servers == [] {
      return;
    }
    AddPolicies(t, dns, injected, servers);
  }

  /** The writes of the injection. */
  method AddPolicies(t: Text, dns: Node, hosts: seq<string>, servers: seq<string>)
    requires dns.Valid() && |dns.tree.kids| % 2 == 0
    modifies dns.repr
    ensures var policy := Ensured(Find(old(dns.tree.kids), "nameserver-policy"));
            dns.Valid() && dns.tree == old(dns.tree).(kids := Put(old(dns.tree.kids), "nameserver-policy",
              policy.(kids := PutEach(policy.kids, hosts, Urls(t, servers)))))
    ensures old(dns.repr) <= dns.repr && fresh(dns.repr - old(dns.repr))
  {
    var policy, at := EnsureMapping(dns, "nameserver-policy");
    Rewritten(old(dns.tree.kids), "nameserver-policy", policy.tree,
              policy.tree.(kids := PutEach(policy.tree.kids, hosts, Urls(t, servers))));
    SpeakFor(t, policy, hosts, servers);
    dns.Refresh(at);
  }

  /** The writes to the dns section. */
  method WriteDns(t: Text, dns: Node, hosts: seq<string>, servers: seq<string>) returns (injected: seq<string>)
    requires dns.Valid() && |dns.tree.kids| % 2 == 0
    modifies dns.repr
    ensures var ranged := Put(old(dns.tree.kids), "fake-ip-range", Leaf("!!str", FAKE_IP_RANGE));
            dns.Valid() && dns.tree == old(dns.tree).(kids := Injected(t, ranged, hosts, servers))
    ensures old(dns.repr) <= dns.repr && fresh(dns.repr - old(dns.repr))
    ensures injected == Reported(t, old(dns.tree.kids), hosts)
  {
    FindPut(dns.tree.kids, "fake-ip-range", Leaf("!!str", FAKE_IP_RANGE), "nameserver-policy");
    SetLeaf(dns, "fake-ip-range", "!!str", FAKE_IP_RANGE);
    injected := Inject(t, dns, hosts, servers);
  }

  method OverlayDns(t: Text, root: Node, hosts: seq<string>, servers: seq<string>) returns (injected: seq<string>)
    requires root.Valid() && WholePairs(root.tree.kids)
    modifies root.repr
    ensures root.Valid() && root.tree == old(root.tree).(kids := WithDns(t, old(root.tree.kids), hosts, servers))
    ensures old(root.repr) <= root.repr && fresh(root.repr - old(root.repr))
    ensures injected == Reported(t, Ensured(Find(old(root.tree.kids), "dns")).kids, hosts)
  {
    FindWhole(root.tree.kids, "dns");
    var dns, at := EnsureMapping(root, "dns");
    Rewritten(old(root.tree.kids), "dns", dns.tree, DnsTree(t, old(root.tree.kids), hosts, servers));
    injected := WriteDns(t, dns, hosts, servers);
    root.Refresh(at);
  }

  // ----- The config that is handed to the core -------------------------------------------------

  method Overlay(t: Text, root: Node, fd: int, hosts: seq<string>, servers: seq<string>) returns (injected: seq<string>)
    requires root.Valid() && WholePairs(root.tree.kids)
    requires hosts == HostsOf(t, root.tree.kids)
    modifies root.repr
    ensures root.Valid() && root.tree == old(root.tree).(kids := Overlaid(t, old(root.tree.kids), fd, servers))
    ensures old(root.repr) <= root.repr && fresh(root.repr - old(root.repr))
    ensures injected == ReportedHosts(t, old(root.tree.kids))
  {
    FindWithTun(t, root.tree.kids, fd, "dns");
    TunnedIsWhole(t, root.tree.kids, fd);
    FindWithTun(t, root.tree.kids, fd, "proxies");
    FindWithTun(t, root.tree.kids, fd, "proxy-providers");
    OverlayTun(t, root, fd);
    injected := OverlayDns(t, root, hosts, servers);
  }

  /** The config after the patches that exist were merged into it. */
  ghost function Config(root: Node, patch: Node?, finalPatch: Node?): seq<Tree>
    reads root, if patch == null then {} else {patch}, if finalPatch == null then {} else {finalPatch}
  {
    Merged(Merged(root.tree.kids, if patch == null then [] else patch.tree.kids),
           if finalPatch == null then [] else finalPatch.tree.kids)
  }

  /**
   * `buildRuntimeConfigWithMetadata`: the root becomes the overlay of the merged config; neither
   * the merges nor the overlay's writes reach a node of a patch.
   */
  method Build(t: Text, root: Node, patch: Node?, finalPatch: Node?, fd: int, hosts: seq<string>, servers: seq<string>)
    returns (injected: seq<string>)
    requires root.Valid() && WholePairs(root.tree.kids)
    requires patch != null ==> patch.Valid() && WholePairs(patch.tree.kids) && patch.repr !! root.repr
    requires finalPatch != null ==>
               finalPatch.Valid() && WholePairs(finalPatch.tree.kids) && finalPatch.repr !! root.repr
    requires hosts == HostsOf(t, Config(root, patch, finalPatch))
    modifies root.repr
    ensures root.Valid()
    ensures root.tree.kids == Overlaid(t, old(Config(root, patch, finalPatch)), fd, servers)
    ensures injected == ReportedHosts(t, old(Config(root, patch, finalPatch)))
    ensures patch != null ==> unchanged(patch.repr) && patch.Valid() && patch.repr !! root.repr
    ensures finalPatch != null ==> unchanged(finalPatch.repr) && finalPatch.Valid() && finalPatch.repr !! root.repr
  {
    MergeOptional(root, patch);
    MergeOptional(root, finalPatch);
    injected := Overlay(t, root, fd, hosts, servers);
  }

  method MergeOptional(root: Node, patch: Node?)
    requires root.Valid() && WholePairs(root.tree.kids)
    requires patch != null ==> patch.Valid() && WholePairs(patch.tree.kids) && patch.repr !! root.repr
    modifies root.repr
    ensures root.Valid() && WholePairs(root.tree.kids)
    ensures root.tree.kids == Merged(old(root.tree.kids), if patch == null then [] else patch.tree.kids)
    ensures old(root.repr) <= root.repr && fresh(root.repr - old(root.repr))
  {
    if patch != null {
      MergeKeepsWhole(root.tree.kids, patch.tree.kids);
      root.MergeMapping(patch);
    }
  }
}
