/**
 * The DNS policy cache (core/mobile/core.go): which nameserver policies the running core has, for
 * which control hosts they are replaced whenever Android's servers change, and what any history
 * of such changes leaves in it.
 */
module DnsPolicyHistory {
  import opened Options
  import opened DnsPolicy

  // ----- The cache ------------------------------------------------------------------------

  /** The domain matching of the core, for matchers and for domain patterns. */
  datatype Matching = Matching(matches: (nat, string) -> bool, covers: (string, string) -> bool)

  predicate CoversHost(m: Matching, ps: seq<Policy>, host: string) {
    exists i | 0 <= i < |ps| :: Covering(m, ps[i], host)
  }

  predicate Covering(m: Matching, p: Policy, host: string) {
    (p.matcher.Some? && m.matches(p.matcher.value, host)) || (p.domain != "" && m.covers(p.domain, host))
  }

  function Uncovered(m: Matching, hosts: seq<string>, ps: seq<Policy>): seq<string> {
    if hosts == [] then []
    else (if CoversHost(m, ps, hosts[0]) then [] else [hosts[0]]) + Uncovered(m, hosts[1..], ps)
  }

  lemma {:induction false} UncoveredConcat(m: Matching, a: seq<string>, b: seq<string>, ps: seq<Policy>)
    ensures Uncovered(m, a + b, ps) == Uncovered(m, a, ps) + Uncovered(m, b, ps)
  {
    if a == [] {
      assert a + b == b;
    } else {
      assert (a + b)[1..] == a[1..] + b;
      UncoveredConcat(m, a[1..], b, ps);
    }
  }

  /** Some of the hosts, in their order. */
  predicate Subsequence(some: seq<string>, all: seq<string>) {
    some == []
    || (all != [] && ((some[0] == all[0] && Subsequence(some[1..], all[1..])) || Subsequence(some, all[1..])))
  }

  /** A policy is about the host: its matcher matches it, or its domain is there and covers it. */
  ghost predicate About(m: Matching, p: Policy, host: string) {
    || (p.matcher.Some? && m.matches(p.matcher.value, host))
    || (p.domain != "" && m.covers(p.domain, host))
  }

  /** Just the hosts that no policy is about are left, in their order. */
  lemma {:induction false} UncoveredExactly(m: Matching, hosts: seq<string>, ps: seq<Policy>, h: string)
    ensures h in Uncovered(m, hosts, ps) <==> h in hosts && forall p | p in ps :: !About(m, p, h)
    ensures Subsequence(Uncovered(m, hosts, ps), hosts)
  {
    UncoveredInOrder(m, hosts, ps);
    if hosts == [] {
    } else {
      assert hosts == [hosts[0]] + hosts[1..];
      UncoveredExactly(m, hosts[1..], ps, h);
      CoveredExactly(m, ps, hosts[0]);
    }
  }

  lemma {:induction false} UncoveredInOrder(m: Matching, hosts: seq<string>, ps: seq<Policy>)
    ensures Subsequence(Uncovered(m, hosts, ps), hosts)
  {
    if hosts == [] {
    } else {
      var left := Uncovered(m, hosts[1..], ps);
      UncoveredInOrder(m, hosts[1..], ps);
      assert [] + left == left && ([hosts[0]] + left)[1..] == left;
    }
  }

  lemma CoveredExactly(m: Matching, ps: seq<Policy>, h: string)
    ensures CoversHost(m, ps, h) <==> exists p | p in ps :: About(m, p, h)
  {
    if CoversHost(m, ps, h) {
      var i :| 0 <= i < |ps| && Covering(m, ps[i], h);
      assert ps[i] in ps && About(m, ps[i], h);
    }
    if p :| p in ps && About(m, p, h) {
      var i :| 0 <= i < |ps| && ps[i] == p;
      assert Covering(m, ps[i], h);
    }
  }

  /** The incoming hosts that are new, each one once. */
  function NewHosts(incoming: seq<string>, seen: set<string>): seq<string> {
    if incoming == [] then []
    else if Lower(incoming[0]) in seen then NewHosts(incoming[1..], seen)
    else [incoming[0]] + NewHosts(incoming[1..], seen + {Lower(incoming[0])})
  }

  function Extra(existing: seq<string>, incoming: seq<string>): seq<string> {
    if existing == [] then incoming else NewHosts(incoming, LowerAll(existing))
  }

  function MergedHosts(existing: seq<string>, incoming: seq<string>): seq<string> {
    existing + Extra(existing, incoming)
  }

  lemma {:induction false} NewHostsAreNew(incoming: seq<string>, seen: set<string>)
    ensures LowerAll(NewHosts(incoming, seen)) !! seen
    ensures LowerAll(NewHosts(incoming, seen)) + seen == LowerAll(incoming) + seen
  {
    if incoming == [] {
    } else {
      var rest := incoming[1..];
      assert incoming == [incoming[0]] + rest;
      assert LowerAll(incoming) == {Lower(incoming[0])} + LowerAll(rest);
      if Lower(incoming[0]) in seen {
        NewHostsAreNew(rest, seen);
      } else {
        var more := NewHosts(rest, seen + {Lower(incoming[0])});
        NewHostsAreNew(rest, seen + {Lower(incoming[0])});
        assert LowerAll([incoming[0]] + more) == {Lower(incoming[0])} + LowerAll(more);
      }
    }
  }

  lemma {:induction false} NewHostsInOrder(incoming: seq<string>, seen: set<string>)
    ensures Subsequence(NewHosts(incoming, seen), incoming)
  {
    if incoming == [] {
    } else if Lower(incoming[0]) in seen {
      NewHostsInOrder(incoming[1..], seen);
    } else {
      NewHostsInOrder(incoming[1..], seen + {Lower(incoming[0])});
    }
  }

  lemma {:induction false} SubsequenceOfItself(hosts: seq<string>)
    ensures Subsequence(hosts, hosts)
  {
    if hosts == [] {
    } else {
      SubsequenceOfItself(hosts[1..]);
    }
  }

  /** Merging keeps the tracked hosts in front and appends some of the incoming ones in their order. */
  lemma MergedHostsInOrder(existing: seq<string>, incoming: seq<string>)
    ensures existing <= MergedHosts(existing, incoming)
    ensures Subsequence(MergedHosts(existing, incoming)[|existing|..], incoming)
  {
    if existing == [] {
      SubsequenceOfItself(incoming);
      assert MergedHosts(existing, incoming) == incoming;
    } else {
      NewHostsInOrder(incoming, LowerAll(existing));
    }
  }

  /** Merging never tracks a host twice that was tracked before, and tracks all that come in. */
  lemma MergedHostsAreTracked(existing: seq<string>, incoming: seq<string>)
    ensures LowerAll(Extra(existing, incoming)) !! LowerAll(existing)
    ensures LowerAll(MergedHosts(existing, incoming)) == LowerAll(existing) + LowerAll(incoming)
  {
    LowerAllConcat(existing, Extra(existing, incoming));
    if existing != [] {
      NewHostsAreNew(incoming, LowerAll(existing));
    }
  }

  /** `lastDNSConfig`'s policies, `lastDNSPolicyHosts`, and whether the core runs. */
  datatype Cache = Cache(last: Option<seq<Policy>>, hosts: seq<string>, running: bool)

  /**
   * What happens to the cache. Servers are None when they could not be parsed, and the empty
   * list when Android reports none.
   */
  datatype Event =
    | Sync(policies: seq<Policy>, controlHosts: seq<string>, servers: Option<seq<NameServer>>)
    | MergeStartup(policies: seq<Policy>, injected: seq<string>)
    | Refresh(servers: Option<seq<NameServer>>)
    | Shutdown

  ghost function Apply(m: Matching, c: Cache, e: Event): Cache {
    match e
    case Sync(ps, control, servers) =>
      var hosts := Uncovered(m, control, ps);
      Cache(Some(if hosts != [] && servers.Some? && servers.value != [] then Replaced(ps, hosts,
              servers.value) else ps),
            hosts, c.running)
    case MergeStartup(ps, injected) =>
      Cache(Some(if c.last.Some? then c.last.value else ps), MergedHosts(c.hosts, injected), true)
    case Refresh(servers) =>
      if !c.running || c.last.None? || c.hosts == [] || servers.None? then c
      else c.(last := Some(Replaced(c.last.value, c.hosts, servers.value)))
    case Shutdown => if c.running then Cache(None, [], false) else c
  }

  ghost function Execute(m: Matching, c: Cache, es: seq<Event>): Cache {
    if es == [] then c else Apply(m, Execute(m, c, es[..|es| - 1]), es[|es| - 1])
  }

  class DnsPolicyCache {
    var last: Option<seq<Policy>>
    var hosts: seq<string>
    var running: bool
    const matching: Matching

    function View(): Cache
      reads this
    {
      Cache(last, hosts, running)
    }

    constructor (matching: Matching)
      ensures View() == Cache(None, [], false) && this.matching == matching
    {
      last, hosts, running := None, [], false;
      this.matching := matching;
    }

    /** `filterDNSPolicyHostsForCurrentPolicies`. */
    method FilterHosts(control: seq<string>, policies: seq<Policy>) returns (next: seq<string>)
      ensures next == Uncovered(matching, control, policies)
    {
      next := [];
      for i := 0 to |control|
        invariant next == Uncovered(matching, control[..i], policies)
      {
        assert control[..i + 1] == control[..i] + [control[i]];
        UncoveredConcat(matching, control[..i], [control[i]], policies);
        var covered := PoliciesCoverHost(policies, control[i]);
        if !covered {
          next := next + [control[i]];
        }
      }
      assert control[..|control|] == control;
    }

    /** `dnsPoliciesCoverHost`. */
    method PoliciesCoverHost(policies: seq<Policy>, host: string) returns (covered: bool)
      ensures covered <==> CoversHost(matching, policies, host)
    {
      for i := 0 to |policies|
        invariant forall k | 0 <= k < i :: !Covering(matching, policies[k], host)
      {
        var p := policies[i];
        if p.matcher.Some? && matching.matches(p.matcher.value, host) {
          assert Covering(matching, policies[i], host);
          return true;
        }
        if p.domain != "" && matching.covers(p.domain, host) {
          assert Covering(matching, policies[i], host);
          return true;
        }
      }
      return false;
    }

    /** `mergeDNSPolicyHosts`. */
    method MergeHosts(existing: seq<string>, incoming: seq<string>) returns (merged: seq<string>)
      ensures merged == MergedHosts(existing, incoming)
    {
      if |existing| == 0 {
        assert existing + incoming == incoming;
        return incoming;
      }
      merged := existing;
      var seen := LowerAll(existing);
      for i := 0 to |incoming|
        invariant MergedHosts(existing, incoming) == merged + NewHosts(incoming[i..], seen)
      {
        assert incoming[i..][1..] == incoming[i + 1..];
        var key := Lower(incoming[i]);
        if key in seen {
          continue;
        }
        seen := seen + {key};
        merged := merged + [incoming[i]];
      }
    }

    /**
     * `syncRuntimeConfigStateFromAppliedConfigWithServers`; a config without DNS or general
     * section brings no policies and is ignored.
     */
    method SyncApplied(policies: Option<seq<Policy>>, control: seq<string>, servers: Option<seq<NameServer>>)
      modifies this
      ensures View() == if policies.None? then old(View())
                        else Apply(matching, old(View()), Sync(policies.value, control, servers))
    {
      if policies.None? {
        return;
      }
      var tracked := FilterHosts(control, policies.value);
      last, hosts := policies, tracked;
      if |tracked| == 0 || servers.None? || |servers.value| == 0 {
        return;
      }
      var replaced := Replace(policies.value, tracked, servers.value);
      last := Some(replaced);
    }

    /** `mergeStartupRuntimeConfigState`; the core has just been marked running. */
    method MergeStartupState(policies: seq<Policy>, injected: seq<string>)
      modifies this
      ensures View() == Apply(matching, old(View()), MergeStartup(policies, injected))
    {
      running := true;
      if last.None? {
        last := Some(policies);
      }
      hosts := MergeHosts(hosts, injected);
    }

    /** `refreshAndroidTailscaleDNSPolicy`; false is its error return. */
    method RefreshPolicy(servers: Option<seq<NameServer>>) returns (ok: bool)
      modifies this
      ensures View() == Apply(matching, old(View()), Refresh(servers))
      ensures ok <==> !old(running) || (old(last).Some? && (old(hosts) == [] || servers.Some?))
    {
      if !running {
        return true;
      }
      if last.None? {
        return false;
      }
      if |hosts| == 0 {
        return true;
      }
      if servers.None? {
        return false;
      }
      var replaced := Replace(last.value, hosts, servers.value);
      last := Some(replaced);
      return true;
    }

    /** `shutdownLocked`, as far as the cache goes. */
    method Clear()
      modifies this
      ensures View() == Apply(matching, old(View()), Shutdown)
    {
      if running {
        last, hosts, running := None, [], false;
      }
    }
  }

  // ----- What an applied config and a shutdown leave ------------------------------------------

  /** After a sync a control host is either tracked or one that a policy of the config is about, never both. */
  lemma SyncTracksWhatIsLeft(m: Matching, c: Cache, sync: Event, h: string)
    requires sync.Sync? && h in sync.controlHosts
    ensures h in Apply(m, c, sync).hosts <==> forall p | p in sync.policies :: !About(m, p, h)
    ensures Subsequence(Apply(m, c, sync).hosts, sync.controlHosts)
    ensures Apply(m, c, sync).running == c.running
  {
    UncoveredExactly(m, sync.controlHosts, sync.policies, h);
  }

  /**
   * With servers, each control host that no policy is about gets just these servers; every policy
   * that is not of such a host, and without servers every policy, stays that of the config.
   */
  lemma SyncServesWhatIsLeft(m: Matching, c: Cache, sync: Event, h: string)
    requires sync.Sync? && h in sync.controlHosts && forall p | p in sync.policies :: !About(m, p, h)
    ensures Apply(m, c, sync).last.Some?
    ensures sync.servers.None? || sync.servers == Some([]) ==> Apply(m, c, sync).last.value == sync.policies
    ensures sync.servers.Some? && sync.servers.value != [] ==>
              var last := Apply(m, c, sync).last.value;
              && (forall p | p in last && p.matcher.None? && Lower(p.domain) == Lower(h) ::
                    p.servers == sync.servers.value)
              && (exists p | p in last :: p.matcher.None? && Lower(p.domain) == Lower(h))
    ensures Untouched(Apply(m, c, sync).last.value, LowerAll(Apply(m, c, sync).hosts))
         == Untouched(sync.policies, LowerAll(Apply(m, c, sync).hosts))
  {
    SyncTracksWhatIsLeft(m, c, sync, h);
    if sync.servers.Some? && sync.servers.value != [] {
      var hosts := Apply(m, c, sync).hosts;
      ReplaceRenewsEveryHost(sync.policies, hosts, sync.servers.value, h);
      ReplaceKeepsTheRest(sync.policies, hosts, sync.servers.value, LowerAll(hosts));
    }
  }

  /** Nothing of the past survives the shutdown of a running core: until a config or a startup comes, all is empty. */
  lemma {:induction false} ShutdownForgetsEverything(m: Matching, c: Cache, es: seq<Event>)
    requires c.running && forall i | 0 <= i < |es| :: es[i].Refresh? || es[i].Shutdown?
    ensures Execute(m, Apply(m, c, Shutdown), es) == Cache(None, [], false)
  {
    if es == [] {
    } else {
      ShutdownForgetsEverything(m, c, es[..|es| - 1]);
    }
  }

  /** While no core runs, refreshes and shutdowns leave the cache alone. */
  lemma OnlyARunningCoreIsRefreshed(m: Matching, c: Cache, e: Event)
    requires !c.running && (e.Refresh? || e.Shutdown?)
    ensures Apply(m, c, e) == c
  {
  }

  // ----- The cache does not drift ---------------------------------------------------------

  /** Since the last applied config: startup merges, and refreshes that find servers or fail to parse any. */
  ghost predicate Serving(es: seq<Event>) {
    forall i | 0 <= i < |es| :: es[i].MergeStartup? || (es[i].Refresh? && es[i].servers != Some([]))
  }

  ghost predicate Running(es: seq<Event>) {
    forall i | 0 <= i < |es| :: es[i].MergeStartup? || es[i].Refresh?
  }

  /** The cached policies are the applied ones, or those with some of the hosts replaced. */
  ghost predicate Derived(c: Cache, applied: seq<Policy>) {
    && c.last.Some?
    && (c.last.value == applied || exists some, more, servers :: Stale(c, applied, some, more, servers))
  }

  ghost predicate Stale(c: Cache, applied: seq<Policy>, some: seq<string>, more: seq<string>,
          servers: seq<NameServer>) {
    && c.last.Some? && c.hosts == some + more && LowerAll(some) !! LowerAll(more) && servers != []
    && c.last.value == Replaced(applied, some, servers)
  }

  lemma ReplaceDerived(c: Cache, applied: seq<Policy>, servers: seq<NameServer>)
    requires Derived(c, applied)
    ensures Replaced(c.last.value, c.hosts, servers) == Replaced(applied, c.hosts, servers)
  {
    if c.last.value != applied {
      var some, more, first :| Stale(c, applied, some, more, first);
      ReplaceAgainForgets(applied, some, more, first, servers);
    }
  }

  lemma StaleGrows(c: Cache, applied: seq<Policy>, some: seq<string>, more: seq<string>,
          servers: seq<NameServer>, extra: seq<string>)
    requires Stale(c, applied, some, more, servers) && LowerAll(extra) !! LowerAll(c.hosts)
    ensures Stale(c.(hosts := c.hosts + extra, running := true), applied, some, more + extra, servers)
  {
    LowerAllConcat(some, more);
    LowerAllConcat(more, extra);
    assert c.hosts + extra == some + (more + extra);
  }

  lemma MergeKeepsDerived(m: Matching, c: Cache, applied: seq<Policy>, e: Event)
    requires Derived(c, applied) && e.MergeStartup?
    ensures Derived(Apply(m, c, e), applied)
  {
    var c' := Apply(m, c, e);
    if c.last.value != applied {
      var some, more, servers :| Stale(c, applied, some, more, servers);
      MergedHostsAreTracked(c.hosts, e.injected);
      StaleGrows(c, applied, some, more, servers, Extra(c.hosts, e.injected));
      assert c' == c.(hosts := c.hosts + Extra(c.hosts, e.injected), running := true);
    }
  }

  lemma RefreshKeepsDerived(m: Matching, c: Cache, applied: seq<Policy>, e: Event)
    requires Derived(c, applied) && e.Refresh? && e.servers != Some([])
    ensures Derived(Apply(m, c, e), applied)
  {
    var c' := Apply(m, c, e);
    if c' != c {
      ReplaceDerived(c, applied, e.servers.value);
      assert c.hosts == c.hosts + [];
      assert Stale(c', applied, c.hosts, [], e.servers.value);
    }
  }

  lemma SyncDerives(m: Matching, c: Cache, e: Event)
    requires e.Sync?
    ensures Derived(Apply(m, c, e), e.policies)
  {
    var c' := Apply(m, c, e);
    if c'.last.value != e.policies {
      assert c'.hosts == c'.hosts + [];
      assert Stale(c', e.policies, c'.hosts, [], e.servers.value);
    }
  }

  lemma {:induction false} HistoryDerives(m: Matching, c: Cache, applied: seq<Policy>, es: seq<Event>)
    requires Derived(c, applied) && Serving(es)
    ensures Derived(Execute(m, c, es), applied)
  {
    if es == [] {
    } else {
      var init, e := es[..|es| - 1], es[|es| - 1];
      HistoryDerives(m, c, applied, init);
      if e.MergeStartup? {
        MergeKeepsDerived(m, Execute(m, c, init), applied, e);
      } else {
        RefreshKeepsDerived(m, Execute(m, c, init), applied, e);
      }
    }
  }

  /**
   * History independence: as long as servers were there, a refresh gives exactly what one
   * replacement in the applied config gives, whatever servers came and went since.
   */
  lemma RefreshForgetsHistory(m: Matching, c: Cache, sync: Event, es: seq<Event>, servers: seq<NameServer>)
    requires sync.Sync? && Serving(es)
    ensures var before := Execute(m, Apply(m, c, sync), es);
            var after := Apply(m, before, Refresh(Some(servers)));
            before.running && before.hosts != [] ==> after.last == Some(Replaced(sync.policies, before.hosts, servers))
  {
    SyncDerives(m, c, sync);
    HistoryDerives(m, Apply(m, c, sync), sync.policies, es);
    ReplaceDerived(Execute(m, Apply(m, c, sync), es), sync.policies, servers);
  }

  /** The hosts only grow between applied configs. */
  lemma {:induction false} HostsGrow(m: Matching, c: Cache, es: seq<Event>)
    requires Running(es)
    ensures LowerAll(c.hosts) <= LowerAll(Execute(m, c, es).hosts)
  {
    if es == [] {
    } else {
      var before := Execute(m, c, es[..|es| - 1]);
      HostsGrow(m, c, es[..|es| - 1]);
      if es[|es| - 1].MergeStartup? {
        MergedHostsAreTracked(before.hosts, es[|es| - 1].injected);
      }
    }
  }

  /**
   * Even if servers vanish in between, policies with a matcher or of a domain that is not
   * tracked stay those of the applied config, with their values and in their order.
   */
  lemma {:induction false} TheRestNeverChanges(m: Matching, c: Cache, sync: Event, es: seq<Event>, all: set<string>)
    requires sync.Sync? && Running(es) && LowerAll(Execute(m, Apply(m, c, sync), es).hosts) <= all
    ensures Execute(m, Apply(m, c, sync), es).last.Some?
    ensures Untouched(Execute(m, Apply(m, c, sync), es).last.value, all) == Untouched(sync.policies, all)
  {
    var c0 := Apply(m, c, sync);
    if es == [] {
      if c0.last.value != sync.policies {
        ReplaceKeepsTheRest(sync.policies, c0.hosts, sync.servers.value, all);
      }
    } else {
      var init, e := es[..|es| - 1], es[|es| - 1];
      var before := Execute(m, c0, init);
      HostsGrow(m, before, [e]);
      assert Execute(m, before, [e]) == Apply(m, before, e) by { assert [e][..0] == []; }
      TheRestNeverChanges(m, c, sync, init, all);
      if e.Refresh? && Apply(m, before, e) != before {
        ReplaceKeepsTheRest(before.last.value, before.hosts, e.servers.value, all);
      }
    }
  }

  // ----- Servers that vanish and come back --------------------------------------------------

  /** A refresh that takes policies away: Android reports no servers while hosts are tracked. */
  predicate Spell(c: Cache, e: Event) {
    e == Refresh(Some([])) && c.running && c.last.Some? && c.hosts != []
  }

  /** The hosts that were tracked at the last such refresh, if there was one. */
  ghost function LastSpell(m: Matching, c: Cache, es: seq<Event>): Option<seq<string>> {
    if es == [] then None
    else
      var before := Execute(m, c, es[..|es| - 1]);
      if Spell(before, es[|es| - 1]) then Some(before.hosts) else LastSpell(m, c, es[..|es| - 1])
  }

  /** What the cache has forgotten nothing of: the applied policies, or what the last spell left of them. */
  ghost function Base(applied: seq<Policy>, spell: Option<seq<string>>): seq<Policy> {
    match spell case None => applied case Some(hosts) => Replaced(applied, hosts, [])
  }

  ghost predicate Extends(hosts: seq<string>, spell: Option<seq<string>>) {
    spell.Some? ==> spell.value <= hosts
  }

  /** A spell leaves just what is not tracked, which is what it would leave of the applied config. */
  lemma SpellLeavesTheRest(m: Matching, c: Cache, sync: Event, es: seq<Event>)
    requires sync.Sync? && Running(es)
    ensures var before := Execute(m, Apply(m, c, sync), es);
            before.last.Some? && Replaced(before.last.value, before.hosts, [])
                    == Replaced(sync.policies, before.hosts, [])
  {
    var before := Execute(m, Apply(m, c, sync), es);
    var all := LowerAll(before.hosts);
    TheRestNeverChanges(m, c, sync, es, all);
    RetainedWithout(before.last.value, all);
    RetainedWithout(sync.policies, all);
  }

  lemma {:induction false} HistorySinceSpell(m: Matching, c: Cache, sync: Event, es: seq<Event>)
    requires sync.Sync? && Running(es)
    ensures var now, spell := Execute(m, Apply(m, c, sync), es), LastSpell(m, Apply(m, c, sync), es);
            Derived(now, Base(sync.policies, spell)) && Extends(now.hosts, spell)
  {
    if es == [] {
      SyncDerives(m, c, sync);
    } else {
      var init, e := es[..|es| - 1], es[|es| - 1];
      var before, spell := Execute(m, Apply(m, c, sync), init), LastSpell(m, Apply(m, c, sync), init);
      HistorySinceSpell(m, c, sync, init);
      if Spell(before, e) {
        SpellLeavesTheRest(m, c, sync, init);
      } else if e.MergeStartup? {
        MergeKeepsDerived(m, before, Base(sync.policies, spell), e);
      } else if e.servers != Some([]) {
        RefreshKeepsDerived(m, before, Base(sync.policies, spell), e);
      }
    }
  }

  // Each list of hosts that comes in names every host once; so does then the merged list.

  ghost predicate NamesOnce(e: Event) {
    match e
    case Sync(_, control, _) => Distinct(control)
    case MergeStartup(_, injected) => Distinct(injected)
    case _ => true
  }

  lemma {:induction false} UncoveredAreListed(m: Matching, hosts: seq<string>, ps: seq<Policy>, h: string)
    requires h in Uncovered(m, hosts, ps)
    ensures h in hosts
  {
    if h !in Uncovered(m, hosts[1..], ps) {
      assert h == hosts[0];
    } else {
      UncoveredAreListed(m, hosts[1..], ps, h);
    }
  }

  lemma Prepended(host: string, rest: seq<string>)
    requires Distinct(rest) && forall h | h in rest :: Lower(h) != Lower(host)
    ensures Distinct([host] + rest)
  {
  }

  lemma {:induction false} UncoveredAreDistinct(m: Matching, hosts: seq<string>, ps: seq<Policy>)
    requires Distinct(hosts)
    ensures Distinct(Uncovered(m, hosts, ps))
  {
    if hosts == [] {
    } else {
      var rest := hosts[1..];
      UncoveredAreDistinct(m, rest, ps);
      forall h | h in Uncovered(m, rest, ps) ensures Lower(h) != Lower(hosts[0]) {
        UncoveredAreListed(m, rest, ps, h);
      }
      Prepended(hosts[0], Uncovered(m, rest, ps));
    }
  }

  lemma {:induction false} NewHostsAreDistinct(incoming: seq<string>, seen: set<string>)
    ensures Distinct(NewHosts(incoming, seen))
  {
    if incoming == [] {
    } else {
      if Lower(incoming[0]) in seen {
        NewHostsAreDistinct(incoming[1..], seen);
      } else {
        var more := seen + {Lower(incoming[0])};
        NewHostsAreDistinct(incoming[1..], more);
        NewHostsAreNew(incoming[1..], more);
        forall h | h in NewHosts(incoming[1..], more) ensures Lower(h) != Lower(incoming[0]) {
          assert Lower(h) in LowerAll(NewHosts(incoming[1..], more));
        }
        Prepended(incoming[0], NewHosts(incoming[1..], more));
      }
    }
  }

  lemma MergedAreDistinct(existing: seq<string>, incoming: seq<string>)
    requires Distinct(existing) && Distinct(incoming)
    ensures Distinct(MergedHosts(existing, incoming))
  {
    var extra := Extra(existing, incoming);
    MergedHostsAreTracked(existing, incoming);
    if existing != [] {
      NewHostsAreDistinct(incoming, LowerAll(existing));
    }
    forall i, j | 0 <= i < |existing| && 0 <= j < |extra| ensures Lower(existing[i]) != Lower(extra[j]) {
      assert Lower(existing[i]) in LowerAll(existing) && Lower(extra[j]) in LowerAll(extra);
    }
  }

  lemma {:induction false} HostsStayDistinct(m: Matching, c: Cache, sync: Event, es: seq<Event>)
    requires sync.Sync? && Running(es) && NamesOnce(sync) && forall e | e in es :: NamesOnce(e)
    ensures Distinct(Execute(m, Apply(m, c, sync), es).hosts)
  {
    if es == [] {
      UncoveredAreDistinct(m, sync.controlHosts, sync.policies);
    } else {
      var init, e := es[..|es| - 1], es[|es| - 1];
      HostsStayDistinct(m, c, sync, init);
      assert e in es;
      if e.MergeStartup? {
        MergedAreDistinct(Execute(m, Apply(m, c, sync), init).hosts, e.injected);
      }
    }
  }

  lemma RefreshSinceSpell(m: Matching, c: Cache, sync: Event, es: seq<Event>, servers: seq<NameServer>)
    requires sync.Sync? && Running(es)
    ensures var before, spell := Execute(m, Apply(m, c, sync), es), LastSpell(m, Apply(m, c, sync), es);
            before.running && before.hosts != [] ==>
              Apply(m, before, Refresh(Some(servers))).last
                == Some(Replaced(Base(sync.policies, spell), before.hosts, servers))
  {
    HistorySinceSpell(m, c, sync, es);
    ReplaceDerived(Execute(m, Apply(m, c, sync), es), Base(sync.policies, LastSpell(m, Apply(m, c, sync), es)),
            servers);
  }

  /** When what a spell left behind makes no difference any more. */
  lemma BaseForgotten(applied: seq<Policy>, spell: Option<seq<string>>, hosts: seq<string>, servers: seq<NameServer>)
    requires servers != [] && Distinct(hosts) && Extends(hosts, spell)
    ensures Replaced(Base(applied, spell), hosts, servers) == Replaced(applied, hosts, servers)
       <==> spell.None? || Appended(applied, spell.value)
  {
    if spell.Some? {
      var more := hosts[|spell.value|..];
      assert hosts == spell.value + more;
      SpellWithoutServers(applied, spell.value, more, servers);
    }
  }

  /**
   * After any startups and refreshes since a config was applied, a refresh with servers gives
   * what one replacement in that config gives, exactly if no refresh took policies away in
   * between, or the policies of the hosts it last did that for stood at the end of that config
   * already, in the order and spelling of these hosts.
   */
  lemma RefreshForgetsHistoryIff(m: Matching, c: Cache, sync: Event, es: seq<Event>, servers: seq<NameServer>)
    requires sync.Sync? && Running(es) && NamesOnce(sync) && forall e | e in es :: NamesOnce(e)
    requires servers != []
    ensures var before, spell := Execute(m, Apply(m, c, sync), es), LastSpell(m, Apply(m, c, sync), es);
            var after := Apply(m, before, Refresh(Some(servers)));
            before.running && before.hosts != [] ==>
              (after.last == Some(Replaced(sync.policies, before.hosts, servers))
               <==> spell.None? || Appended(sync.policies, spell.value))
  {
    var before, spell := Execute(m, Apply(m, c, sync), es), LastSpell(m, Apply(m, c, sync), es);
    if before.running && before.hosts != [] {
      RefreshSinceSpell(m, c, sync, es, servers);
      HistorySinceSpell(m, c, sync, es);
      HostsStayDistinct(m, c, sync, es);
      BaseForgotten(sync.policies, spell, before.hosts, servers);
    }
  }

  /** A refresh without servers never depends on the history at all. */
  lemma EmptyRefreshForgetsHistory(m: Matching, c: Cache, sync: Event, es: seq<Event>)
    requires sync.Sync? && Running(es)
    ensures var before := Execute(m, Apply(m, c, sync), es);
            before.running && before.hosts != [] ==>
              Apply(m, before, Refresh(Some([]))).last == Some(Replaced(sync.policies, before.hosts, []))
  {
    SpellLeavesTheRest(m, c, sync, es);
  }
}
