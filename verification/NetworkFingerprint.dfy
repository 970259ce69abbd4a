/**
 * The canonical fingerprint of an Android network snapshot
 * (core/mobile/android_network_info.go).
 */
module NetworkFingerprint {
  import opened Options
  import opened SortedText

  datatype Interface = Interface(
    name: string, index: int, mtu: int, networkHandle: nat, validated: bool,
    addresses: seq<string>, dnsServers: seq<string>)

  datatype NetworkInfo = NetworkInfo(defaultInterface: string, interfaces: seq<Interface>)

  /**
   * The text handling of the libraries the core calls: trimming and parsing one address
   * (None for a blank one), and the two JSON encodings.
   */
  datatype Text = Text(
    normalize: string -> Option<string>,
    encodeInterface: Interface -> string,
    encodeSnapshot: (string, seq<string>) -> string)

  /** JSON keeps apart what differs, and an encoded object is never the empty string. */
  ghost predicate Faithful(t: Text) {
    && (forall a, b :: t.encodeInterface(a) == t.encodeInterface(b) ==> a == b)
    && (forall d, e, x, y :: t.encodeSnapshot(d, x) == t.encodeSnapshot(e, y) ==> d == e && x == y)
    && (forall d, x :: t.encodeSnapshot(d, x) != "")
  }

  function Normalized(t: Text, values: seq<string>): seq<string> {
    if values == [] then []
    else match t.normalize(values[0])
      case None => Normalized(t, values[1..])
      case Some(v) => [v] + Normalized(t, values[1..])
  }

  lemma {:induction false} NormalizedAppend(t: Text, values: seq<string>, v: string)
    ensures Normalized(t, values + [v]) == Normalized(t, values) + Normalized(t, [v])
  {
    if values == [] {
      assert values + [v] == [v];
    } else {
      assert (values + [v])[1..] == values[1..] + [v];
      NormalizedAppend(t, values[1..], v);
    }
  }

  /** The normal forms of the values that are not blank. */
  ghost function NormalForms(t: Text, values: seq<string>): set<string> {
    set v | v in values && t.normalize(v).Some? :: t.normalize(v).value
  }

  lemma {:induction false} NormalizedElements(t: Text, values: seq<string>)
    ensures Elements(Normalized(t, values)) == NormalForms(t, values)
  {
    if values == [] {
    } else {
      var first, rest := values[0], values[1..];
      NormalizedElements(t, rest);
      assert values == [first] + rest;
      assert NormalForms(t, values) == NormalForms(t, [first]) + NormalForms(t, rest);
      match t.normalize(first)
      case None => assert NormalForms(t, [first]) == {};
      case Some(v) =>
        assert first in [first];
        assert NormalForms(t, [first]) == {v};
        assert Elements([v] + Normalized(t, rest)) == {v} + Elements(Normalized(t, rest));
    }
  }

  /** `canonicalAndroidNetworkAddresses`. */
  method CanonicalAddresses(t: Text, values: seq<string>) returns (canonical: seq<string>)
    ensures canonical == Canonical(Normalized(t, values))
  {
    canonical := [];
    for i := 0 to |values|
      invariant canonical == Normalized(t, values[..i])
    {
      assert values[..i + 1] == values[..i] + [values[i]];
      NormalizedAppend(t, values[..i], values[i]);
      match t.normalize(values[i])
      case None =>
      case Some(v) => canonical := canonical + [v];
    }
    assert values[..|values|] == values;
    canonical := Canonical(canonical);
  }

  function Cleaned(t: Text, iface: Interface): Interface {
    iface.(addresses := Canonical(Normalized(t, iface.addresses)),
           dnsServers := Canonical(Normalized(t, iface.dnsServers)))
  }

  function Encoded(t: Text, interfaces: seq<Interface>): seq<string> {
    seq(|interfaces|, i requires 0 <= i < |interfaces| => Code(t, interfaces[i]))
  }

  function Fingerprint(t: Text, info: NetworkInfo): string {
    t.encodeSnapshot(info.defaultInterface, Canonical(Encoded(t, info.interfaces)))
  }

  /** The default interface is named, listed, and has some usable address. */
  ghost predicate Available(t: Text, info: NetworkInfo) {
    exists i | 0 <= i < |info.interfaces| :: Usable(t, info.defaultInterface, info.interfaces[i])
  }

  ghost predicate Usable(t: Text, defaultInterface: string, iface: Interface) {
    defaultInterface != "" && iface.name == defaultInterface && NormalForms(t, iface.addresses) != {}
  }

  lemma CanonicalEmpty(s: seq<string>)
    ensures Canonical(s) == [] <==> s == []
  {
    CanonicalForm(s);
    if s != [] {
      assert s[0] in Elements(s);
    }
  }

  lemma NothingNormal(t: Text, values: seq<string>)
    ensures Normalized(t, values) == [] <==> NormalForms(t, values) == {}
  {
    NormalizedElements(t, values);
    if Normalized(t, values) != [] {
      assert Normalized(t, values)[0] in Elements(Normalized(t, values));
    }
  }

  function Code(t: Text, iface: Interface): string {
    t.encodeInterface(Cleaned(t, iface))
  }

  /** One turn of the loop of `healthCheckFingerprint`. */
  method EncodeOne(t: Text, defaultInterface: string, iface: Interface) returns (encoded: string, usable: bool)
    ensures encoded == Code(t, iface)
    ensures usable <==> Usable(t, defaultInterface, iface)
  {
    var addresses := CanonicalAddresses(t, iface.addresses);
    var dnsServers := CanonicalAddresses(t, iface.dnsServers);
    CanonicalEmpty(Normalized(t, iface.addresses));
    NothingNormal(t, iface.addresses);
    usable := defaultInterface != "" && iface.name == defaultInterface && |addresses| > 0;
    encoded := t.encodeInterface(iface.(addresses := addresses, dnsServers := dnsServers));
  }

  /** `healthCheckFingerprint`. */
  method HealthCheckFingerprint(t: Text, info: NetworkInfo) returns (fingerprint: string, available: bool)
    ensures fingerprint == Fingerprint(t, info)
    ensures available <==> Available(t, info)
  {
    var interfaces: seq<string> := [];
    ghost var codes := Encoded(t, info.interfaces);
    available := false;
    for i := 0 to |info.interfaces|
      invariant interfaces == codes[..i]
      invariant available <==> exists k | 0 <= k < i :: Usable(t, info.defaultInterface, info.interfaces[k])
    {
      var encoded, usable := EncodeOne(t, info.defaultInterface, info.interfaces[i]);
      if usable {
        available := true;
      }
      interfaces := interfaces + [encoded];
    }
    assert interfaces == codes && codes == Encoded(t, info.interfaces);
    fingerprint := t.encodeSnapshot(info.defaultInterface, Canonical(interfaces));
  }

  // ----- What the fingerprint means -------------------------------------------------------

  /** An interface with the order and repetition of its addresses and servers forgotten. */
  datatype InterfaceMeaning = InterfaceMeaning(
    name: string, index: int, mtu: int, networkHandle: nat, validated: bool,
    addresses: set<string>, dnsServers: set<string>)

  ghost function Meaning(t: Text, i: Interface): InterfaceMeaning {
    InterfaceMeaning(i.name, i.index, i.mtu, i.networkHandle, i.validated,
      NormalForms(t, i.addresses), NormalForms(t, i.dnsServers))
  }

  ghost function Meanings(t: Text, info: NetworkInfo): set<InterfaceMeaning> {
    set i | i in info.interfaces :: Meaning(t, i)
  }

  lemma SameMeaningSameCode(t: Text, a: Interface, b: Interface)
    requires Faithful(t)
    ensures Meaning(t, a) == Meaning(t, b) <==> Code(t, a) == Code(t, b)
  {
    NormalizedElements(t, a.addresses);
    NormalizedElements(t, b.addresses);
    NormalizedElements(t, a.dnsServers);
    NormalizedElements(t, b.dnsServers);
    CanonicalIffSameElements(Normalized(t, a.addresses), Normalized(t, b.addresses));
    CanonicalIffSameElements(Normalized(t, a.dnsServers), Normalized(t, b.dnsServers));
  }

  lemma CodesFollowMeanings(t: Text, a: NetworkInfo, b: NetworkInfo)
    requires Faithful(t)
    ensures Meanings(t, a) <= Meanings(t, b) <==>
            Elements(Encoded(t, a.interfaces)) <= Elements(Encoded(t, b.interfaces))
  {
    var ca, cb := Encoded(t, a.interfaces), Encoded(t, b.interfaces);
    if Meanings(t, a) <= Meanings(t, b) {
      forall x | x in ca ensures x in cb {
        var k :| 0 <= k < |ca| && ca[k] == x;
        assert Meaning(t, a.interfaces[k]) in Meanings(t, a);
        var i :| i in b.interfaces && Meaning(t, i) == Meaning(t, a.interfaces[k]);
        var n :| 0 <= n < |b.interfaces| && b.interfaces[n] == i;
        SameMeaningSameCode(t, a.interfaces[k], i);
        assert cb[n] == x;
      }
    }
    if Elements(ca) <= Elements(cb) {
      forall m | m in Meanings(t, a) ensures m in Meanings(t, b) {
        var i :| i in a.interfaces && Meaning(t, i) == m;
        var k :| 0 <= k < |a.interfaces| && a.interfaces[k] == i;
        assert ca[k] in Elements(ca);
        var n :| 0 <= n < |cb| && cb[n] == ca[k];
        SameMeaningSameCode(t, i, b.interfaces[n]);
        assert b.interfaces[n] in b.interfaces;
      }
    }
  }

  /** Two snapshots share a fingerprint exactly when they mean the same network. */
  lemma FingerprintIsCanonical(t: Text, a: NetworkInfo, b: NetworkInfo)
    requires Faithful(t)
    ensures Fingerprint(t, a) == Fingerprint(t, b) <==>
            a.defaultInterface == b.defaultInterface && Meanings(t, a) == Meanings(t, b)
  {
    CanonicalIffSameElements(Encoded(t, a.interfaces), Encoded(t, b.interfaces));
    CodesFollowMeanings(t, a, b);
    CodesFollowMeanings(t, b, a);
  }

  lemma AvailableFromMeaning(t: Text, info: NetworkInfo)
    ensures Available(t, info) <==>
            info.defaultInterface != "" &&
            exists m | m in Meanings(t, info) :: m.name == info.defaultInterface && m.addresses != {}
  {
    if Available(t, info) {
      var i :| 0 <= i < |info.interfaces| && Usable(t, info.defaultInterface, info.interfaces[i]);
      var m := Meaning(t, info.interfaces[i]);
      assert m in Meanings(t, info);
    }
    if info.defaultInterface != "" && exists m | m in Meanings(t, info) ::
            m.name == info.defaultInterface && m.addresses != {} {
      var m :| m in Meanings(t, info) && m.name == info.defaultInterface && m.addresses != {};
      var i :| i in info.interfaces && Meaning(t, i) == m;
      var k :| 0 <= k < |info.interfaces| && info.interfaces[k] == i;
      assert Usable(t, info.defaultInterface, info.interfaces[k]);
    }
  }

  /** An equal fingerprint cannot hide a change of availability. */
  lemma EqualFingerprintsEqualAvailability(t: Text, a: NetworkInfo, b: NetworkInfo)
    requires Faithful(t) && Fingerprint(t, a) == Fingerprint(t, b)
    ensures Available(t, a) <==> Available(t, b)
  {
    FingerprintIsCanonical(t, a, b);
    AvailableFromMeaning(t, a);
    AvailableFromMeaning(t, b);
  }
}
