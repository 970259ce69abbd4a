/**
 * Replacing the nameserver policies of Tailscale's control hosts by Android's servers
 * (core/mobile/core.go), and what one replacement leaves of an earlier one.
 */
module DnsPolicy {
  import opened Options

  type NameServer = string

  /** A policy for a domain, or, with a matcher, for whatever the matcher matches. */
  datatype Policy = Policy(domain: string, matcher: Option<nat>, servers: seq<NameServer>)

  // ----- Lower case -----------------------------------------------------------------------

  function LowerChar(c: char): char {
    if 'A' <= c <= 'Z' then c - 'A' + 'a' else c
  }

  function Lower(s: string): string {
    seq(|s|, i requires 0 <= i < |s| => LowerChar(s[i]))
  }

  lemma LowerTwice(s: string)
    ensures Lower(Lower(s)) == Lower(s)
  {
  }

  function LowerAll(hosts: seq<string>): set<string> {
    set h | h in hosts :: Lower(h)
  }

  // ----- Replacing the policies of hosts --------------------------------------------------

  predicate Tracked(p: Policy, hosts: set<string>) {
    p.matcher.None? && Lower(p.domain) in hosts
  }

  /** What becomes of the policies there are. */
  function Retained(ps: seq<Policy>, hosts: set<string>, servers: seq<NameServer>): seq<Policy> {
    if ps == [] then []
    else Treated(ps[0], hosts, servers) + Retained(ps[1..], hosts, servers)
  }

  function Treated(p: Policy, hosts: set<string>, servers: seq<NameServer>): seq<Policy> {
    if !Tracked(p, hosts) then [p] else if servers == [] then [] else [p.(servers := servers)]
  }

  /** The hosts some policy speaks of already. */
  ghost function Spoken(ps: seq<Policy>, hosts: set<string>): set<string> {
    set p | p in ps && Tracked(p, hosts) :: Lower(p.domain)
  }

  /** A policy for every host not spoken of. */
  function Added(hosts: seq<string>, spoken: set<string>, servers: seq<NameServer>): seq<Policy> {
    if hosts == [] then []
    else (if Lower(hosts[0]) in spoken then [] else [Policy(Lower(hosts[0]), None, servers)])
         + Added(hosts[1..], spoken, servers)
  }

  ghost function Replaced(ps: seq<Policy>, hosts: seq<string>, servers: seq<NameServer>): seq<Policy> {
    Retained(ps, LowerAll(hosts), servers)
    + (if servers == [] then [] else Added(hosts, Spoken(ps, LowerAll(hosts)), servers))
  }

  lemma {:induction false} RetainedConcat(a: seq<Policy>, b: seq<Policy>, hosts: set<string>, servers: seq<NameServer>)
    ensures Retained(a + b, hosts, servers) == Retained(a, hosts, servers) + Retained(b, hosts, servers)
  {
    if a == [] {
      assert a + b == b;
    } else {
      assert (a + b)[1..] == a[1..] + b;
      RetainedConcat(a[1..], b, hosts, servers);
    }
  }

  lemma {:induction false} AddedConcat(a: seq<string>, b: seq<string>, spoken: set<string>, servers: seq<NameServer>)
    ensures Added(a + b, spoken, servers) == Added(a, spoken, servers) + Added(b, spoken, servers)
  {
    if a == [] {
      assert a + b == b;
    } else {
      assert (a + b)[1..] == a[1..] + b;
      AddedConcat(a[1..], b, spoken, servers);
    }
  }

  /** `replaceDNSPoliciesForHosts`. */
  method Replace(ps: seq<Policy>, hosts: seq<string>, servers: seq<NameServer>) returns (next: seq<Policy>)
    ensures next == Replaced(ps, hosts, servers)
  {
    var hostSet: set<string> := {};
    for i := 0 to |hosts|
      invariant hostSet == LowerAll(hosts[..i])
    {
      assert hosts[..i + 1] == hosts[..i] + [hosts[i]];
      hostSet := hostSet + {Lower(hosts[i])};
    }
    assert hosts[..|hosts|] == hosts;
    var retained, replaced := RetainAll(ps, hostSet, servers);
    next := retained;
    if |servers| == 0 {
      return;
    }
    var added := AddMissing(hosts, replaced, servers);
    next := next + added;
  }

  lemma RetainedOne(ps: seq<Policy>, p: Policy, hosts: set<string>, servers: seq<NameServer>)
    ensures Retained(ps + [p], hosts, servers) == Retained(ps, hosts, servers) + Treated(p, hosts, servers)
    ensures Spoken(ps + [p], hosts) == Spoken(ps, hosts) + if Tracked(p, hosts) then {Lower(p.domain)} else {}
  {
    RetainedConcat(ps, [p], hosts, servers);
    assert Retained([p], hosts, servers) == Treated(p, hosts, servers) + Retained([], hosts, servers);
  }

  /** The loop over the policies there are. */
  method RetainAll(ps: seq<Policy>, hostSet: set<string>, servers: seq<NameServer>)
    returns (next: seq<Policy>, replaced: set<string>)
    ensures next == Retained(ps, hostSet, servers) && replaced == Spoken(ps, hostSet)
  {
    next, replaced := [], {};
    for i := 0 to |ps|
      invariant next == Retained(ps[..i], hostSet, servers) && replaced == Spoken(ps[..i], hostSet)
    {
      var policy, host := ps[i], Lower(ps[i].domain);
      assert ps[..i + 1] == ps[..i] + [policy];
      RetainedOne(ps[..i], policy, hostSet, servers);
      if policy.matcher.Some? || host !in hostSet {
        next := next + [policy];
      } else {
        replaced := replaced + {host};
        if |servers| != 0 {
          next := next + [policy.(servers := servers)];
        }
      }
    }
    assert ps[..|ps|] == ps;
  }

  /** The loop over the hosts without a policy. */
  method AddMissing(hosts: seq<string>, replaced: set<string>, servers: seq<NameServer>) returns (next: seq<Policy>)
    ensures next == Added(hosts, replaced, servers)
  {
    next := [];
    for i := 0 to |hosts|
      invariant next == Added(hosts[..i], replaced, servers)
    {
      var host := Lower(hosts[i]);
      assert hosts[..i + 1] == hosts[..i] + [hosts[i]];
      AddedConcat(hosts[..i], [hosts[i]], replaced, servers);
      if host !in replaced {
        next := next + [Policy(host, None, servers)];
      }
    }
    assert hosts[..|hosts|] == hosts;
  }

  // ----- What a replacement means ---------------------------------------------------------

  /** The policies a replacement has no business with: those with a matcher, and those of other domains. */
  function Untouched(ps: seq<Policy>, hosts: set<string>): seq<Policy> {
    if ps == [] then []
    else IfUntouched(ps[0], hosts) + Untouched(ps[1..], hosts)
  }

  function IfUntouched(p: Policy, hosts: set<string>): seq<Policy> {
    if p.matcher.Some? || Lower(p.domain) !in hosts then [p] else []
  }

  lemma {:induction false} UntouchedConcat(a: seq<Policy>, b: seq<Policy>, hosts: set<string>)
    ensures Untouched(a + b, hosts) == Untouched(a, hosts) + Untouched(b, hosts)
  {
    if a == [] {
      assert a + b == b;
    } else {
      var first, rest := IfUntouched(a[0], hosts), Untouched(a[1..], hosts);
      assert (a + b)[1..] == a[1..] + b && (a + b)[0] == a[0];
      UntouchedConcat(a[1..], b, hosts);
      assert first + (rest + Untouched(b, hosts)) == (first + rest) + Untouched(b, hosts);
    }
  }

  /** More hosts tracked, or some of the tracked ones replaced before, makes no difference to the rest. */
  lemma {:induction false} RetainedKeepsUntouched(ps: seq<Policy>, some: set<string>, all: set<string>,
          servers: seq<NameServer>)
    requires some <= all
    ensures Untouched(Retained(ps, some, servers), all) == Untouched(ps, all)
  {
    if ps == [] {
    } else {
      RetainedKeepsUntouched(ps[1..], some, all, servers);
      var t := Treated(ps[0], some, servers);
      UntouchedConcat(t, Retained(ps[1..], some, servers), all);
      if t != [] {
        assert t[1..] == [];
        assert Untouched(t, all) == if Tracked(ps[0], all) then [] else [ps[0]];
      }
    }
  }

  lemma {:induction false} NothingUntouched(ps: seq<Policy>, hosts: set<string>)
    requires forall p | p in ps :: Tracked(p, hosts)
    ensures Untouched(ps, hosts) == []
  {
    if ps == [] {
    } else {
      assert Tracked(ps[0], hosts);
      NothingUntouched(ps[1..], hosts);
    }
  }

  lemma AddedIsTracked(hosts: seq<string>, spoken: set<string>, servers: seq<NameServer>, all: set<string>)
    requires LowerAll(hosts) <= all
    ensures Untouched(Added(hosts, spoken, servers), all) == []
  {
    AddedSpeak(hosts, spoken, servers);
    NothingUntouched(Added(hosts, spoken, servers), all);
  }

  /** The added policies are for the hosts not spoken of, and for each of them. */
  lemma {:induction false} AddedSpeak(hosts: seq<string>, spoken: set<string>, servers: seq<NameServer>)
    ensures forall p | p in Added(hosts, spoken, servers) ::
              p.matcher.None? && p.servers == servers && Lower(p.domain) in LowerAll(hosts)
                      && Lower(p.domain) !in spoken
    ensures forall h | h in LowerAll(hosts) && h !in spoken :: exists p | p in Added(hosts, spoken, servers) ::
            Lower(p.domain) == h
  {
    if hosts == [] {
    } else {
      var rest := hosts[1..];
      assert hosts == [hosts[0]] + rest;
      assert LowerAll(hosts) == {Lower(hosts[0])} + LowerAll(rest);
      AddedSpeak(rest, spoken, servers);
      LowerTwice(hosts[0]);
      var tail := Added(rest, spoken, servers);
      if Lower(hosts[0]) !in spoken {
        var p := Policy(Lower(hosts[0]), None, servers);
        assert Added(hosts, spoken, servers) == [p] + tail;
        assert ([p] + tail)[1..] == tail;
        assert p in [p] + tail;
        assert forall q | q in tail :: q in [p] + tail;
      } else {
        assert Added(hosts, spoken, servers) == tail;
      }
    }
  }

  /** Policies with a matcher or of another domain come through exactly, in order. */
  lemma ReplaceKeepsTheRest(ps: seq<Policy>, hosts: seq<string>, servers: seq<NameServer>, all: set<string>)
    requires LowerAll(hosts) <= all
    ensures Untouched(Replaced(ps, hosts, servers), all) == Untouched(ps, all)
  {
    var some := LowerAll(hosts);
    RetainedKeepsUntouched(ps, some, all, servers);
    AddedIsTracked(hosts, Spoken(ps, some), servers, all);
    if servers != [] {
      UntouchedConcat(Retained(ps, some, servers), Added(hosts, Spoken(ps, some), servers), all);
    } else {
      assert Replaced(ps, hosts, servers) == Retained(ps, some, servers);
    }
  }

  lemma {:induction false} RetainedIsFresh(ps: seq<Policy>, hosts: set<string>, servers: seq<NameServer>)
    ensures forall p | p in Retained(ps, hosts, servers) && Tracked(p, hosts) :: servers != [] && p.servers == servers
    ensures servers != [] ==> Spoken(Retained(ps, hosts, servers), hosts) == Spoken(ps, hosts)
  {
    if ps == [] {
    } else {
      RetainedIsFresh(ps[1..], hosts, servers);
      var t, rest := Treated(ps[0], hosts, servers), Retained(ps[1..], hosts, servers);
      SpokenConcat(t, rest, hosts);
      SpokenConcat([ps[0]], ps[1..], hosts);
      assert ps == [ps[0]] + ps[1..];
      if servers != [] {
        assert Spoken(t, hosts) == Spoken([ps[0]], hosts) by {
          assert t[0].domain == ps[0].domain && t[0].matcher == ps[0].matcher;
          assert t == [t[0]];
        }
      }
    }
  }

  lemma SpokenConcat(a: seq<Policy>, b: seq<Policy>, hosts: set<string>)
    ensures Spoken(a + b, hosts) == Spoken(a, hosts) + Spoken(b, hosts)
  {
  }

  /** After a replacement every tracked host has the newest servers and nothing else; or nothing, without servers. */
  lemma ReplaceRenewsEveryHost(ps: seq<Policy>, hosts: seq<string>, servers: seq<NameServer>, host: string)
    requires host in hosts
    ensures forall p | p in Replaced(ps, hosts, servers) && p.matcher.None? && Lower(p.domain) == Lower(host) ::
              servers != [] && p.servers == servers
    ensures servers != [] ==>
              exists p | p in Replaced(ps, hosts, servers) :: p.matcher.None?
                      && Lower(p.domain) == Lower(host) && p.servers == servers
  {
    var all := LowerAll(hosts);
    var kept, spoken := Retained(ps, all, servers), Spoken(ps, all);
    RetainedIsFresh(ps, all, servers);
    AddedSpeak(hosts, spoken, servers);
    assert Lower(host) in all;
    if servers != [] {
      var added := Added(hosts, spoken, servers);
      assert Replaced(ps, hosts, servers) == kept + added;
      if Lower(host) in spoken {
        var p :| p in kept && Tracked(p, all) && Lower(p.domain) == Lower(host);
        assert p in kept + added;
      } else {
        var p :| p in added && Lower(p.domain) == Lower(host);
        assert p in kept + added;
      }
    }
  }

  // ----- Replacing again forgets the earlier replacement ----------------------------------

  lemma {:induction false} RetainedTwice(ps: seq<Policy>, some: set<string>, all: set<string>,
          first: seq<NameServer>, second: seq<NameServer>)
    requires some <= all && first != []
    ensures Retained(Retained(ps, some, first), all, second) == Retained(ps, all, second)
  {
    if ps == [] {
    } else {
      RetainedTwice(ps[1..], some, all, first, second);
      var t := Treated(ps[0], some, first);
      RetainedConcat(t, Retained(ps[1..], some, first), all, second);
      assert t == [t[0]] && t[1..] == [];
      assert Retained(t, all, second) == Treated(t[0], all, second);
    }
  }

  lemma {:induction false} RetainedAdded(hosts: seq<string>, spoken: set<string>, all: set<string>,
          first: seq<NameServer>, second: seq<NameServer>)
    requires LowerAll(hosts) <= all
    ensures Retained(Added(hosts, spoken, first), all, second) == if second
            == [] then [] else Added(hosts, spoken, second)
  {
    if hosts == [] {
    } else {
      var rest := hosts[1..];
      assert hosts == [hosts[0]] + rest;
      assert LowerAll(hosts) == {Lower(hosts[0])} + LowerAll(rest);
      RetainedAdded(rest, spoken, all, first, second);
      LowerTwice(hosts[0]);
      if Lower(hosts[0]) !in spoken {
        var added := Added(hosts, spoken, first);
        assert added[1..] == Added(rest, spoken, first);
      } else {
        assert Added(hosts, spoken, first) == Added(rest, spoken, first);
      }
    }
  }

  /** Only what is spoken of among the hosts themselves matters. */
  lemma {:induction false} AddedAgrees(hosts: seq<string>, a: set<string>, b: set<string>, servers: seq<NameServer>)
    requires forall h | h in hosts :: Lower(h) in a <==> Lower(h) in b
    ensures Added(hosts, a, servers) == Added(hosts, b, servers)
  {
    if hosts == [] {
    } else {
      AddedAgrees(hosts[1..], a, b, servers);
    }
  }

  lemma {:induction false} AllSpoken(hosts: seq<string>, spoken: set<string>, servers: seq<NameServer>)
    requires forall h | h in hosts :: Lower(h) in spoken
    ensures Added(hosts, spoken, servers) == []
  {
    if hosts == [] {
    } else {
      AllSpoken(hosts[1..], spoken, servers);
    }
  }

  /** After a replacement every tracked host is spoken of, besides what the policies spoke of before. */
  lemma SpokenAfterReplace(ps: seq<Policy>, hosts: seq<string>, servers: seq<NameServer>, all: set<string>)
    requires LowerAll(hosts) <= all && servers != []
    ensures Spoken(Replaced(ps, hosts, servers), all) == Spoken(ps, all) + LowerAll(hosts)
  {
    var some := LowerAll(hosts);
    var kept, added := Retained(ps, some, servers), Added(hosts, Spoken(ps, some), servers);
    SpokenConcat(kept, added, all);
    RetainedSpeaks(ps, some, all, servers);
    AddedSpeak(hosts, Spoken(ps, some), servers);
    assert Spoken(ps, some) <= Spoken(ps, all);
    forall h | h in some ensures h in Spoken(ps, all) + Spoken(added, all) {
      if h !in Spoken(ps, some) {
        var p :| p in added && Lower(p.domain) == h;
        assert Tracked(p, all);
      }
    }
  }

  lemma {:induction false} RetainedSpeaks(ps: seq<Policy>, some: set<string>, all: set<string>,
          servers: seq<NameServer>)
    requires servers != []
    ensures Spoken(Retained(ps, some, servers), all) == Spoken(ps, all)
  {
    if ps == [] {
    } else {
      RetainedSpeaks(ps[1..], some, all, servers);
      var t, rest := Treated(ps[0], some, servers), Retained(ps[1..], some, servers);
      SpokenConcat(t, rest, all);
      SpokenConcat([ps[0]], ps[1..], all);
      assert ps == [ps[0]] + ps[1..];
      assert t == [t[0]] && t[0].domain == ps[0].domain && t[0].matcher == ps[0].matcher;
      assert Spoken(t, all) == Spoken([ps[0]], all);
    }
  }

  lemma LowerAllConcat(a: seq<string>, b: seq<string>)
    ensures LowerAll(a + b) == LowerAll(a) + LowerAll(b)
  {
  }

  /** What the second replacement retains: the first one's additions as well. */
  lemma RetainedAgain(ps: seq<Policy>, some: seq<string>, all: set<string>, first: seq<NameServer>,
          second: seq<NameServer>)
    requires first != [] && LowerAll(some) <= all
    ensures Retained(Replaced(ps, some, first), all, second)
         == Retained(ps, all, second) + if second == [] then [] else Added(some, Spoken(ps, all), second)
  {
    var s := LowerAll(some);
    RetainedConcat(Retained(ps, s, first), Added(some, Spoken(ps, s), first), all, second);
    RetainedTwice(ps, s, all, first, second);
    RetainedAdded(some, Spoken(ps, s), all, first, second);
    AddedAgrees(some, Spoken(ps, s), Spoken(ps, all), second);
  }

  /** What the second replacement adds: only the further hosts. */
  lemma AddedAgain(ps: seq<Policy>, some: seq<string>, more: seq<string>, all: set<string>,
          first: seq<NameServer>, second: seq<NameServer>)
    requires first != [] && LowerAll(some) <= all && LowerAll(some) !! LowerAll(more)
    ensures Added(some + more, Spoken(Replaced(ps, some, first), all), second) == Added(more, Spoken(ps, all), second)
  {
    var after := Spoken(Replaced(ps, some, first), all);
    SpokenAfterReplace(ps, some, first, all);
    AddedConcat(some, more, after, second);
    AllSpoken(some, after, second);
    AddedAgrees(more, after, Spoken(ps, all), second);
  }

  lemma Associate(a: seq<Policy>, b: seq<Policy>, c: seq<Policy>)
    ensures (a + b) + c == a + (b + c)
  {
  }

  /**
   * Replacing for some hosts and then for these and more is replacing for all of them at once,
   * provided the first replacement had servers to put in.
   */
  lemma ReplaceAgainForgets(ps: seq<Policy>, some: seq<string>, more: seq<string>, first: seq<NameServer>,
          second: seq<NameServer>)
    requires first != [] && LowerAll(some) !! LowerAll(more)
    ensures Replaced(Replaced(ps, some, first), some + more, second) == Replaced(ps, some + more, second)
  {
    var all := LowerAll(some + more);
    LowerAllConcat(some, more);
    RetainedAgain(ps, some, all, first, second);
    if second != [] {
      AddedAgain(ps, some, more, all, first, second);
      AddedConcat(some, more, Spoken(ps, all), second);
      Associate(Retained(ps, all, second), Added(some, Spoken(ps, all), second), Added(more, Spoken(ps, all), second));
    }
  }

  // ----- A spell without servers ----------------------------------------------------------

  /** The policies of the hosts stand at the end, in the order and spelling of the hosts. */
  ghost predicate Appended(ps: seq<Policy>, hosts: seq<string>) {
    var rest := Untouched(ps, LowerAll(hosts));
    && |rest| <= |ps| <= |rest| + |hosts|
    && ps[..|rest|] == rest
    && forall i | |rest| <= i < |ps| :: ps[i].matcher.None? && ps[i].domain == Lower(hosts[i - |rest|])
  }

  ghost predicate Distinct(hosts: seq<string>) {
    forall i, j | 0 <= i < j < |hosts| :: Lower(hosts[i]) != Lower(hosts[j])
  }

  lemma {:induction false} RetainedWithout(ps: seq<Policy>, hosts: set<string>)
    ensures Retained(ps, hosts, []) == Untouched(ps, hosts)
  {
    if ps == [] {
    } else {
      RetainedWithout(ps[1..], hosts);
    }
  }

  lemma {:induction false} UntouchedIsUntracked(ps: seq<Policy>, hosts: set<string>)
    ensures forall p | p in Untouched(ps, hosts) :: !Tracked(p, hosts)
    ensures |Untouched(ps, hosts)| <= |ps|
    ensures Untouched(ps, hosts) == [] ==> forall p | p in ps :: Tracked(p, hosts)
  {
    if ps == [] {
    } else {
      UntouchedIsUntracked(ps[1..], hosts);
      assert ps == [ps[0]] + ps[1..];
    }
  }

  lemma {:induction false} RetainedAt(ps: seq<Policy>, hosts: set<string>, servers: seq<NameServer>)
    requires servers != []
    ensures |Retained(ps, hosts, servers)| == |ps|
    ensures forall i | 0 <= i < |ps| ::
              Retained(ps, hosts, servers)[i] == if Tracked(ps[i], hosts) then ps[i].(servers := servers) else ps[i]
  {
    if ps == [] {
    } else {
      RetainedAt(ps[1..], hosts, servers);
      assert |Treated(ps[0], hosts, servers)| == 1;
    }
  }

  /** A replacement with servers leaves every policy in its place and appends what is missing. */
  lemma ReplacedInPlace(ps: seq<Policy>, hosts: seq<string>, servers: seq<NameServer>)
    requires servers != []
    ensures var r, all := Replaced(ps, hosts, servers), LowerAll(hosts);
            && |r| >= |ps|
            && (forall i | 0 <= i < |ps| ::
                  var replaced := ps[i].matcher.None? && Lower(ps[i].domain) in all;
                  r[i] == if replaced then ps[i].(servers := servers) else ps[i])
            && r[|ps|..] == Added(hosts, Spoken(ps, all), servers)
  {
    RetainedAt(ps, LowerAll(hosts), servers);
  }

  /** What is missing, host by host in their order: a policy under the lower-case name, unless some policy has it. */
  lemma AddedExactly(before: seq<string>, host: string, after: seq<string>, spoken: set<string>,
          servers: seq<NameServer>)
    ensures Added(before + [host] + after, spoken, servers)
         == Added(before, spoken, servers)
            + (if Lower(host) in spoken then [] else [Policy(Lower(host), None, servers)])
            + Added(after, spoken, servers)
    ensures Added([], spoken, servers) == []
  {
    AddedConcat(before + [host], after, spoken, servers);
    AddedConcat(before, [host], spoken, servers);
    assert [host][1..] == [];
  }

  lemma {:induction false} AddedAt(hosts: seq<string>, spoken: set<string>, servers: seq<NameServer>)
    requires forall h | h in hosts :: Lower(h) !in spoken
    ensures |Added(hosts, spoken, servers)| == |hosts|
    ensures forall i | 0 <= i < |hosts| :: Added(hosts, spoken, servers)[i] == Policy(Lower(hosts[i]), None, servers)
  {
    if hosts == [] {
    } else {
      AddedAt(hosts[1..], spoken, servers);
    }
  }

  /** What is there after a spell without servers: the hosts' policies have all moved to the end. */
  lemma AfterSpell(ps: seq<Policy>, hosts: seq<string>, servers: seq<NameServer>)
    requires servers != []
    ensures var rest := Untouched(ps, LowerAll(hosts));
            && Replaced(Replaced(ps, hosts, []), hosts, servers) == rest + Added(hosts, {}, servers)
  {
    var all := LowerAll(hosts);
    var rest := Untouched(ps, all);
    RetainedWithout(ps, all);
    assert Replaced(ps, hosts, []) == rest;
    UntouchedIsUntracked(ps, all);
    RetainedAt(rest, all, servers);
    assert Retained(rest, all, servers) == rest;
    assert Spoken(rest, all) == {};
  }

  lemma AppendedPlaces(ps: seq<Policy>, hosts: seq<string>)
    requires Appended(ps, hosts)
    ensures var all, u := LowerAll(hosts), |Untouched(ps, LowerAll(hosts))|;
            && (forall i | 0 <= i < u :: !Tracked(ps[i], all))
            && (forall i | u <= i < |ps| :: Tracked(ps[i], all) && Lower(ps[i].domain) == Lower(hosts[i - u]))
  {
    var all, rest := LowerAll(hosts), Untouched(ps, LowerAll(hosts));
    UntouchedIsUntracked(ps, all);
    forall i | 0 <= i < |rest| ensures !Tracked(ps[i], all) {
      assert rest[i] in rest && ps[i] == rest[i];
    }
    forall i | |rest| <= i < |ps| ensures Tracked(ps[i], all) && Lower(ps[i].domain) == Lower(hosts[i - |rest|]) {
      LowerTwice(hosts[i - |rest|]);
      assert hosts[i - |rest|] in hosts;
    }
  }

  lemma RetainedIfAppended(ps: seq<Policy>, hosts: seq<string>, servers: seq<NameServer>)
    requires servers != [] && Appended(ps, hosts)
    ensures var rest := Untouched(ps, LowerAll(hosts));
            |Added(hosts, {}, servers)| == |hosts| &&
            Retained(ps, LowerAll(hosts), servers) == rest + Added(hosts, {}, servers)[..|ps| - |rest|]
  {
    AppendedPlaces(ps, hosts);
    RetainedAt(ps, LowerAll(hosts), servers);
    AddedAt(hosts, {}, servers);
  }

  lemma SpokenIfAppended(ps: seq<Policy>, hosts: seq<string>, j: nat)
    requires Appended(ps, hosts) && j < |ps| - |Untouched(ps, LowerAll(hosts))|
    ensures Lower(hosts[j]) in Spoken(ps, LowerAll(hosts))
  {
    var u := |Untouched(ps, LowerAll(hosts))|;
    AppendedPlaces(ps, hosts);
    assert ps[u + j] in ps && Lower(ps[u + j].domain) == Lower(hosts[j]);
  }

  lemma OnlySpokenIfAppended(ps: seq<Policy>, hosts: seq<string>, j: nat)
    requires Distinct(hosts) && Appended(ps, hosts) && |ps| - |Untouched(ps, LowerAll(hosts))| <= j < |hosts|
    ensures Lower(hosts[j]) !in Spoken(ps, LowerAll(hosts))
  {
    var all, u := LowerAll(hosts), |Untouched(ps, LowerAll(hosts))|;
    AppendedPlaces(ps, hosts);
    forall i | 0 <= i < |ps| ensures !(Tracked(ps[i], all) && Lower(ps[i].domain) == Lower(hosts[j])) {
      if i >= u {
        assert Lower(ps[i].domain) == Lower(hosts[i - u]);
      }
    }
  }

  /** Hosts that are spoken of, followed by hosts that are not. */
  lemma AddedSplit(front: seq<string>, back: seq<string>, spoken: set<string>, servers: seq<NameServer>)
    requires forall h | h in front :: Lower(h) in spoken
    requires forall h | h in back :: Lower(h) !in spoken
    ensures |Added(front + back, {}, servers)| == |front + back|
    ensures Added(front + back, spoken, servers) == Added(front + back, {}, servers)[|front|..]
  {
    AddedConcat(front, back, spoken, servers);
    AllSpoken(front, spoken, servers);
    AddedAgrees(back, spoken, {}, servers);
    AddedConcat(front, back, {}, servers);
    AddedAt(front, {}, servers);
    AddedAt(back, {}, servers);
  }

  lemma SpokenAtTheFront(ps: seq<Policy>, hosts: seq<string>, h: string)
    requires Appended(ps, hosts) && h in hosts[..|ps| - |Untouched(ps, LowerAll(hosts))|]
    ensures Lower(h) in Spoken(ps, LowerAll(hosts))
  {
    var k := |ps| - |Untouched(ps, LowerAll(hosts))|;
    var j :| 0 <= j < k && hosts[..k][j] == h;
    SpokenIfAppended(ps, hosts, j);
  }

  lemma UnspokenAtTheBack(ps: seq<Policy>, hosts: seq<string>, h: string)
    requires Distinct(hosts) && Appended(ps, hosts) && h in hosts[|ps| - |Untouched(ps, LowerAll(hosts))|..]
    ensures Lower(h) !in Spoken(ps, LowerAll(hosts))
  {
    var k := |ps| - |Untouched(ps, LowerAll(hosts))|;
    var j :| 0 <= j < |hosts| - k && hosts[k..][j] == h;
    OnlySpokenIfAppended(ps, hosts, k + j);
  }

  /** Of the hosts, just those without a policy are added. */
  lemma AddedIfAppended(ps: seq<Policy>, hosts: seq<string>, servers: seq<NameServer>)
    requires Distinct(hosts) && Appended(ps, hosts)
    ensures var k := |ps| - |Untouched(ps, LowerAll(hosts))|;
            && |Added(hosts, {}, servers)| == |hosts|
            && Added(hosts, Spoken(ps, LowerAll(hosts)), servers) == Added(hosts, {}, servers)[k..]
  {
    var spoken := Spoken(ps, LowerAll(hosts));
    var k := |ps| - |Untouched(ps, LowerAll(hosts))|;
    forall h | h in hosts[..k] ensures Lower(h) in spoken {
      SpokenAtTheFront(ps, hosts, h);
    }
    forall h | h in hosts[k..] ensures Lower(h) !in spoken {
      UnspokenAtTheBack(ps, hosts, h);
    }
    AddedSplit(hosts[..k], hosts[k..], spoken, servers);
    assert hosts == hosts[..k] + hosts[k..];
  }

  lemma AppendedSuffices(ps: seq<Policy>, hosts: seq<string>, servers: seq<NameServer>)
    requires servers != [] && Distinct(hosts) && Appended(ps, hosts)
    ensures Untouched(ps, LowerAll(hosts)) + Added(hosts, {}, servers) == Replaced(ps, hosts, servers)
  {
    RetainedIfAppended(ps, hosts, servers);
    AddedIfAppended(ps, hosts, servers);
    var k := |ps| - |Untouched(ps, LowerAll(hosts))|;
    var added := Added(hosts, {}, servers);
    assert added == added[..k] + added[k..];
    Associate(Untouched(ps, LowerAll(hosts)), added[..k], added[k..]);
  }

  lemma SameFront(ps: seq<Policy>, hosts: seq<string>, servers: seq<NameServer>)
    requires servers != []
    requires Untouched(ps, LowerAll(hosts)) + Added(hosts, {}, servers) == Replaced(ps, hosts, servers)
    ensures var rest := Untouched(ps, LowerAll(hosts)); |rest| <= |ps| && ps[..|rest|] == rest
  {
    var all := LowerAll(hosts);
    var rest, kept, renewed := Untouched(ps, all), Retained(ps, all, servers), Replaced(ps, hosts, servers);
    UntouchedIsUntracked(ps, all);
    RetainedAt(ps, all, servers);
    forall i | 0 <= i < |rest| ensures ps[i] == rest[i] {
      assert renewed[i] == rest[i] && renewed[i] == kept[i] && rest[i] in rest;
    }
  }

  lemma TrackedBack(front: seq<Policy>, back: seq<Policy>, hosts: set<string>)
    requires Untouched(front + back, hosts) == front
    ensures forall p | p in back :: Tracked(p, hosts)
  {
    UntouchedIsUntracked(front + back, hosts);
    UntouchedConcat(front, back, hosts);
    AllUntracked(front, hosts);
    assert front + Untouched(back, hosts) == front;
    UntouchedIsUntracked(back, hosts);
  }

  /** What stands behind the untouched ones when the two results are the same. */
  lemma SameBack(ps: seq<Policy>, hosts: seq<string>, servers: seq<NameServer>, i: nat)
    requires servers != [] && |Untouched(ps, LowerAll(hosts))| <= i < |ps| && Tracked(ps[i], LowerAll(hosts))
    requires Untouched(ps, LowerAll(hosts)) + Added(hosts, {}, servers) == Replaced(ps, hosts, servers)
    ensures var u := |Untouched(ps, LowerAll(hosts))|;
            i - u < |hosts| && ps[i].matcher.None? && ps[i].domain == Lower(hosts[i - u])
  {
    var all := LowerAll(hosts);
    var rest, kept, added := Untouched(ps, all), Retained(ps, all, servers), Added(hosts, {}, servers);
    RetainedAt(ps, all, servers);
    AddedAt(hosts, {}, servers);
    assert Replaced(ps, hosts, servers)[i] == kept[i];
    assert (rest + added)[i] == added[i - |rest|];
  }

  lemma AppendedIsNeeded(ps: seq<Policy>, hosts: seq<string>, servers: seq<NameServer>)
    requires servers != []
    requires Untouched(ps, LowerAll(hosts)) + Added(hosts, {}, servers) == Replaced(ps, hosts, servers)
    ensures Appended(ps, hosts)
  {
    var all, u := LowerAll(hosts), |Untouched(ps, LowerAll(hosts))|;
    SameFront(ps, hosts, servers);
    SameLength(ps, hosts, servers);
    assert ps == ps[..u] + ps[u..];
    TrackedBack(ps[..u], ps[u..], all);
    forall i | u <= i < |ps| ensures ps[i].matcher.None? && ps[i].domain == Lower(hosts[i - u]) {
      assert ps[i] == ps[u..][i - u];
      SameBack(ps, hosts, servers, i);
    }
    UntouchedIsUntracked(ps, all);
    forall i | 0 <= i < u ensures !Tracked(ps[i], all) {
      assert ps[i] == Untouched(ps, all)[i];
    }
    PlacedAreAppended(ps, hosts, u);
  }

  lemma SameLength(ps: seq<Policy>, hosts: seq<string>, servers: seq<NameServer>)
    requires servers != []
    requires Untouched(ps, LowerAll(hosts)) + Added(hosts, {}, servers) == Replaced(ps, hosts, servers)
    ensures |ps| <= |Untouched(ps, LowerAll(hosts))| + |hosts|
  {
    RetainedAt(ps, LowerAll(hosts), servers);
    AddedAt(hosts, {}, servers);
  }

  lemma {:induction false} AllUntracked(ps: seq<Policy>, hosts: set<string>)
    requires forall p | p in ps :: !Tracked(p, hosts)
    ensures Untouched(ps, hosts) == ps
  {
    if ps == [] {
    } else {
      assert ps[0] in ps && forall p | p in ps[1..] :: p in ps;
      AllUntracked(ps[1..], hosts);
    }
  }

  /** Servers vanish and come back for the same hosts. */
  lemma SpellForTheSameHosts(ps: seq<Policy>, hosts: seq<string>, servers: seq<NameServer>)
    requires servers != [] && Distinct(hosts)
    ensures Replaced(Replaced(ps, hosts, []), hosts, servers) == Replaced(ps, hosts, servers) <==> Appended(ps, hosts)
  {
    AfterSpell(ps, hosts, servers);
    if Appended(ps, hosts) {
      AppendedSuffices(ps, hosts, servers);
    }
    if Replaced(Replaced(ps, hosts, []), hosts, servers) == Replaced(ps, hosts, servers) {
      AppendedIsNeeded(ps, hosts, servers);
    }
  }

  // Further hosts that come in before the servers are back: their policies can be renewed first.

  lemma {:induction false} UntouchedRenewed(ps: seq<Policy>, some: set<string>, more: set<string>,
          servers: seq<NameServer>)
    requires servers != [] && some !! more
    ensures Retained(Untouched(ps, some), some + more, servers) == Untouched(Retained(ps, more, servers), some)
  {
    if ps == [] {
    } else {
      UntouchedRenewed(ps[1..], some, more, servers);
      var t := Treated(ps[0], more, servers);
      assert t == [t[0]] && t[1..] == [];
      UntouchedConcat(t, Retained(ps[1..], more, servers), some);
      if Tracked(ps[0], some) {
        assert t[0].domain == ps[0].domain && t[0].matcher == ps[0].matcher;
        assert Untouched(t, some) == [] && Untouched(ps, some) == Untouched(ps[1..], some);
      } else {
        assert Untouched(t, some) == t && Treated(ps[0], some + more, servers) == t;
        assert Untouched(ps, some)[1..] == Untouched(ps[1..], some);
      }
    }
  }

  lemma {:induction false} RetainedInTwo(ps: seq<Policy>, some: set<string>, more: set<string>,
          servers: seq<NameServer>)
    requires servers != []
    ensures Retained(Retained(ps, more, servers), some, servers) == Retained(ps, some + more, servers)
  {
    if ps == [] {
    } else {
      RetainedInTwo(ps[1..], some, more, servers);
      var t := Treated(ps[0], more, servers);
      RetainedConcat(t, Retained(ps[1..], more, servers), some, servers);
      assert t == [t[0]] && t[1..] == [];
      assert Retained(t, some, servers) == Treated(t[0], some, servers);
    }
  }

  lemma {:induction false} UntouchedMembers(ps: seq<Policy>, hosts: set<string>, p: Policy)
    ensures p in Untouched(ps, hosts) <==> p in ps && !Tracked(p, hosts)
  {
    if ps == [] {
    } else {
      UntouchedMembers(ps[1..], hosts, p);
    }
  }

  lemma SpokenByTheRest(ps: seq<Policy>, some: set<string>, more: set<string>)
    requires some !! more
    ensures Spoken(Untouched(ps, some), some + more) == Spoken(ps, more)
  {
    forall p ensures p in Untouched(ps, some) && Tracked(p, some + more) <==> p in ps && Tracked(p, more) {
      UntouchedMembers(ps, some, p);
    }
  }

  /** With the further hosts' policies renewed first, the spell concerns the earlier hosts alone. */
  lemma SpellSplits(ps: seq<Policy>, some: seq<string>, more: seq<string>, servers: seq<NameServer>)
    requires servers != [] && LowerAll(some) !! LowerAll(more)
    ensures var renewed := Retained(ps, LowerAll(more), servers);
            var added := Added(more, Spoken(ps, LowerAll(more)), servers);
            && Replaced(Replaced(ps, some, []), some + more, servers)
               == Replaced(Replaced(renewed, some, []), some, servers) + added
            && Replaced(ps, some + more, servers) == Replaced(renewed, some, servers) + added
  {
    SpelledInTwo(ps, some, more, servers);
    RenewedInTwo(ps, some, more, servers);
  }

  lemma SpelledInTwo(ps: seq<Policy>, some: seq<string>, more: seq<string>, servers: seq<NameServer>)
    requires servers != [] && LowerAll(some) !! LowerAll(more)
    ensures Replaced(Replaced(ps, some, []), some + more, servers)
         == Replaced(Replaced(Retained(ps, LowerAll(more), servers), some, []), some, servers)
            + Added(more, Spoken(ps, LowerAll(more)), servers)
  {
    var s, m := LowerAll(some), LowerAll(more);
    var rest := Untouched(ps, s);
    RetainedWithout(ps, s);
    assert Replaced(ps, some, []) == rest;
    LowerAllConcat(some, more);
    UntouchedRenewed(ps, s, m, servers);
    SpokenByTheRest(ps, s, m);
    AfterSpell(Retained(ps, m, servers), some, servers);
    AddedConcat(some, more, Spoken(ps, m), servers);
    AddedAgrees(some, Spoken(ps, m), {}, servers);
    Associate(Untouched(Retained(ps, m, servers), s), Added(some, {}, servers), Added(more, Spoken(ps, m), servers));
  }

  lemma RenewedInTwo(ps: seq<Policy>, some: seq<string>, more: seq<string>, servers: seq<NameServer>)
    requires servers != [] && LowerAll(some) !! LowerAll(more)
    ensures Replaced(ps, some + more, servers)
         == Replaced(Retained(ps, LowerAll(more), servers), some, servers) + Added(more, Spoken(ps,
                 LowerAll(more)), servers)
  {
    var s, m := LowerAll(some), LowerAll(more);
    var renewed := Retained(ps, m, servers);
    LowerAllConcat(some, more);
    RetainedInTwo(ps, s, m, servers);
    RetainedSpeaks(ps, m, s, servers);
    AddedConcat(some, more, Spoken(ps, s + m), servers);
    AddedAgrees(some, Spoken(ps, s + m), Spoken(renewed, s), servers);
    AddedAgrees(more, Spoken(ps, s + m), Spoken(ps, m), servers);
    Associate(Retained(renewed, s, servers), Added(some, Spoken(renewed, s), servers), Added(more, Spoken(ps, m),
            servers));
  }

  // Whether the hosts' policies stand at the end does not depend on other policies' servers.

  /** The first u policies are not the hosts'; the others are, in the order and spelling of the hosts. */
  ghost predicate Placed(ps: seq<Policy>, hosts: seq<string>, u: nat) {
    && u <= |ps| <= u + |hosts|
    && (forall i | 0 <= i < u :: !Tracked(ps[i], LowerAll(hosts)))
    && (forall i | u <= i < |ps| :: ps[i].matcher.None? && ps[i].domain == Lower(hosts[i - u]))
  }

  lemma AppendedArePlaced(ps: seq<Policy>, hosts: seq<string>)
    requires Appended(ps, hosts)
    ensures Placed(ps, hosts, |Untouched(ps, LowerAll(hosts))|)
  {
    AppendedPlaces(ps, hosts);
  }

  lemma PlacedAreAppended(ps: seq<Policy>, hosts: seq<string>, u: nat)
    requires Placed(ps, hosts, u)
    ensures Appended(ps, hosts)
  {
    var all := LowerAll(hosts);
    var front, back := ps[..u], ps[u..];
    assert ps == front + back;
    forall p | p in back ensures Tracked(p, all) {
      var i :| 0 <= i < |back| && back[i] == p;
      assert p == ps[u + i];
      LowerTwice(hosts[i]);
      assert hosts[i] in hosts;
    }
    UntouchedConcat(front, back, all);
    AllUntracked(front, all);
    AllTracked(back, all);
    assert Untouched(ps, all) == front;
  }

  lemma {:induction false} AllTracked(ps: seq<Policy>, hosts: set<string>)
    requires forall p | p in ps :: Tracked(p, hosts)
    ensures Untouched(ps, hosts) == []
  {
    if ps == [] {
    } else {
      assert ps[0] in ps && forall p | p in ps[1..] :: p in ps;
      AllTracked(ps[1..], hosts);
    }
  }

  lemma AppendedIfRenewed(ps: seq<Policy>, some: seq<string>, more: set<string>, servers: seq<NameServer>)
    requires servers != []
    ensures Appended(Retained(ps, more, servers), some) <==> Appended(ps, some)
  {
    var renewed := Retained(ps, more, servers);
    RetainedAt(ps, more, servers);
    forall u ensures Placed(renewed, some, u) <==> Placed(ps, some, u) {
      assert forall i | 0 <= i < |ps| :: renewed[i].domain == ps[i].domain && renewed[i].matcher == ps[i].matcher;
    }
    if Appended(ps, some) {
      AppendedArePlaced(ps, some);
      PlacedAreAppended(renewed, some, |Untouched(ps, LowerAll(some))|);
    }
    if Appended(renewed, some) {
      AppendedArePlaced(renewed, some);
      PlacedAreAppended(ps, some, |Untouched(renewed, LowerAll(some))|);
    }
  }

  lemma DistinctParts(some: seq<string>, more: seq<string>)
    requires Distinct(some + more)
    ensures Distinct(some) && LowerAll(some) !! LowerAll(more)
  {
    var all := some + more;
    forall i, j | 0 <= i < j < |some| ensures Lower(some[i]) != Lower(some[j]) {
      assert all[i] == some[i] && all[j] == some[j];
    }
    forall i, j | 0 <= i < |some| && 0 <= j < |more| ensures Lower(some[i]) != Lower(more[j]) {
      assert all[i] == some[i] && all[|some| + j] == more[j];
    }
  }

  /**
   * The one way the order can drift: servers vanish, perhaps further hosts come in, and servers
   * come back. That changes nothing exactly when the policies of the hosts that were replaced
   * without servers stood at the end already, in the order and spelling of these hosts.
   */
  lemma SpellWithoutServers(ps: seq<Policy>, some: seq<string>, more: seq<string>, servers: seq<NameServer>)
    requires servers != [] && Distinct(some + more)
    ensures Replaced(Replaced(ps, some, []), some + more, servers) == Replaced(ps, some + more, servers)
       <==> Appended(ps, some)
  {
    DistinctParts(some, more);
    var renewed := Retained(ps, LowerAll(more), servers);
    SpellSplits(ps, some, more, servers);
    SpellForTheSameHosts(renewed, some, servers);
    AppendedIfRenewed(ps, some, LowerAll(more), servers);
    SuffixCancels(Replaced(Replaced(renewed, some, []), some, servers), Replaced(renewed, some, servers),
                  Added(more, Spoken(ps, LowerAll(more)), servers));
  }

  lemma SuffixCancels(a: seq<Policy>, b: seq<Policy>, c: seq<Policy>)
    ensures a + c == b + c <==> a == b
  {
    if a + c == b + c {
      assert |a| == |b|;
      assert a == (a + c)[..|a|] && b == (b + c)[..|b|];
    }
  }

  /** An input at which it does change something: the entry of the host stood before another one. */
  lemma SpellCanReorder(ps: seq<Policy>)
    requires ps == [Policy("a.b", None, ["x"]), Policy("c.d", None, ["y"])]
    ensures Replaced(ps, ["a.b"], ["n"]) == [Policy("a.b", None, ["n"]), Policy("c.d", None, ["y"])]
    ensures Replaced(Replaced(ps, ["a.b"], []), ["a.b"], ["n"])
            == [Policy("c.d", None, ["y"]), Policy("a.b", None, ["n"])]
    ensures Replaced(Replaced(ps, ["a.b"], []), ["a.b"], ["n"]) != Replaced(ps, ["a.b"], ["n"])
  {
    var all := LowerAll(["a.b"]);
    assert Lower("a.b") == "a.b" && Lower("c.d") == "c.d";
    assert all == {"a.b"};
    var p, q := ps[0], ps[1];
    assert ps[1..] == [q];
    assert Untouched([q], all) == [q] && Untouched(ps, all) == [q];
    AfterSpell(ps, ["a.b"], ["n"]);
    assert Added(["a.b"], {}, ["n"]) == [Policy("a.b", None, ["n"])];
    assert Retained([q], all, ["n"]) == [q];
    assert "a.b" in Spoken(ps, all) by {
      assert p in ps;
    }
    assert Added(["a.b"], Spoken(ps, all), ["n"]) == [];
  }
}
