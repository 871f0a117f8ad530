/**
 * Concrete directories: the fixture of serve_test.go and the answers its
 * tests expect, and small network maps that show how the code as written
 * behaves on alias chains, alias cycles and self-naming alias tags.
 *
 * Each statement holds for every zone; serve_test.go uses "example.com".
 */
module Fixtures {
  import opened Wrappers
  import opened Directory
  import opened Resolution
  import opened NetMap
  import opened Plugin
  import Dns

  /** A query name "<host>.<zone>", as the tests write them. */
  function Name(host: string, zone: string): string
  {
    host + "." + zone
  }

  /** The directory of newTS() in serve_test.go. */
  function TestDirectory(zone: string): Directory
  {
    map[
      "test1" := map["A" := ["127.0.0.1"], "AAAA" := ["::1"]],
      "test2-1" := map["A" := ["127.0.0.1"], "AAAA" := ["::1"]],
      "test2-2" := map["A" := ["127.0.0.1"], "AAAA" := ["::1"]],
      "test2" := map["CNAME" := [Name("test2-1", zone), Name("test2-2", zone)]]
    ]
  }

  function A(owner: string, addr: string): Dns.RR { AddressRecord(IPv4, owner, addr) }
  function AAAA(owner: string, addr: string): Dns.RR { AddressRecord(IPv6, owner, addr) }

  // ---------------------------------------------------------------------
  // Generic steps the fixtures are assembled from.

  /** Under a one-family filter a target's block is its alias record and that family's answer. */
  lemma OneFamilyTarget(d: Directory, owner: string, f: Family, target: string, fuel: nat, r: seq<Dns.RR>)
    requires fuel > 0 && AnswerAddress(d, target, f, fuel - 1) == Some(r)
    ensures AnswerTarget(d, owner, OnlyType(f), target, fuel) == Some([AliasRecord(owner, target)] + r)
  {
    if f == IPv4 {
      assert [AliasRecord(owner, target)] + r + [] == [AliasRecord(owner, target)] + r;
    } else {
      assert [AliasRecord(owner, target)] + [] + r == [AliasRecord(owner, target)] + r;
    }
  }

  /** Under the TypeAll filter a target's block is its alias record, then its A and AAAA answers. */
  lemma AllFamiliesTarget(d: Directory, owner: string, target: string, fuel: nat, r4: seq<Dns.RR>, r6: seq<Dns.RR>)
    requires fuel > 0
    requires AnswerAddress(d, target, IPv4, fuel - 1) == Some(r4) && AnswerAddress(d, target, IPv6, fuel - 1) == Some(r6)
    ensures AnswerTarget(d, owner, TypeAll, target, fuel) == Some([AliasRecord(owner, target)] + r4 + r6)
  {
  }

  /** Two blocks of three records, laid end to end. */
  lemma Blocks(x1: Dns.RR, x2: Dns.RR, x3: Dns.RR, y1: Dns.RR, y2: Dns.RR, y3: Dns.RR)
    ensures [x1] + [x2] + [x3] + ([y1] + [y2] + [y3]) == [x1, x2, x3, y1, y2, y3]
  {
  }

  /** Two blocks of two records, laid end to end. */
  lemma Pairs(x1: Dns.RR, x2: Dns.RR, y1: Dns.RR, y2: Dns.RR)
    ensures [x1] + [x2] + ([y1] + [y2]) == [x1, x2, y1, y2]
  {
  }

  /** Two alias targets: the answer is the two targets' blocks, in list order. */
  lemma TwoTargets(d: Directory, owner: string, lt: LookupType, t1: string, t2: string, fuel: nat,
                   b1: seq<Dns.RR>, b2: seq<Dns.RR>)
    requires AnswerTarget(d, owner, lt, t1, fuel) == Some(b1) && AnswerTarget(d, owner, lt, t2, fuel) == Some(b2)
    ensures AnswerTargets(d, owner, lt, [t1, t2], fuel) == Some(b1 + b2)
  {
    assert [t1] + [t2] == [t1, t2];
    TargetsSplit(d, owner, lt, [t1], [t2], fuel);
    TargetsSingle(d, owner, lt, t1, fuel);
    TargetsSingle(d, owner, lt, t2, fuel);
  }

  /** A key with no list of the queried family and a single alias target: one hop. */
  lemma AliasHop(d: Directory, name: string, f: Family, target: string, fuel: nat, r: seq<Dns.RR>)
    requires LookupKey(name) in d
    requires ListKey(f) !in d[LookupKey(name)] && "CNAME" in d[LookupKey(name)]
    requires d[LookupKey(name)]["CNAME"] == [target]
    requires fuel > 0 && AnswerAddress(d, target, f, fuel - 1) == Some(r)
    ensures AnswerAddress(d, name, f, fuel) == Some([AliasRecord(name, target)] + r)
  {
    TargetsSingle(d, name, OnlyType(f), target, fuel);
    OneFamilyTarget(d, name, f, target, fuel, r);
  }

  // ---------------------------------------------------------------------
  // serve_test.go.

  /** An address host of the fixture: one IPv4 and one IPv6 address. */
  predicate HostShape(d: Directory, h: string)
  {
    h in d && "A" in d[h] && d[h]["A"] == ["127.0.0.1"] && "AAAA" in d[h] && d[h]["AAAA"] == ["::1"]
  }

  /** What the fixture lemmas use of newTS()'s directory. */
  predicate TestShape(d: Directory, zone: string)
  {
    && HostShape(d, "test1") && HostShape(d, "test2-1") && HostShape(d, "test2-2")
    && "test2" in d && "A" !in d["test2"] && "AAAA" !in d["test2"] && "CNAME" in d["test2"]
    && d["test2"]["CNAME"] == [Name("test2-1", zone), Name("test2-2", zone)]
    && "test3" !in d && "Test1" !in d
  }

  lemma TestDirectoryShape(zone: string)
    ensures TestShape(TestDirectory(zone), zone)
  {
    var d := TestDirectory(zone);
    assert HostShape(d, "test1");
    assert HostShape(d, "test2-1");
    assert HostShape(d, "test2-2");
    assert "test2" in d && d["test2"] == map["CNAME" := [Name("test2-1", zone), Name("test2-2", zone)]];
    assert "test3" !in d;
    assert "Test1" !in d;
  }

  /** An address host answers with its one address, in a record owned by the query name. */
  lemma HostAnswers(d: Directory, host: string, zone: string)
    requires HostShape(d, host) && '.' !in host
    ensures AnswerAddress(d, Name(host, zone), IPv4, 0) == Some([A(Name(host, zone), "127.0.0.1")])
    ensures AnswerAddress(d, Name(host, zone), IPv6, 0) == Some([AAAA(Name(host, zone), "::1")])
  {
    var n := Name(host, zone);
    LookupKeyIgnoresZone(host, zone);
    assert AddressRecords(IPv4, n, ["127.0.0.1"]) == [A(n, "127.0.0.1")];
    assert AddressRecords(IPv6, n, ["::1"]) == [AAAA(n, "::1")];
  }

  /** TestResolveA and TestResolveAAAA, for each of the three address hosts. */
  lemma TestResolveAddresses(host: string, zone: string)
    requires host == "test1" || host == "test2-1" || host == "test2-2"
    ensures AnswerAddress(TestDirectory(zone), Name(host, zone), IPv4, 0) == Some([A(Name(host, zone), "127.0.0.1")])
    ensures AnswerAddress(TestDirectory(zone), Name(host, zone), IPv6, 0) == Some([AAAA(Name(host, zone), "::1")])
  {
    TestDirectoryShape(zone);
    assert '.' !in host;
    HostAnswers(TestDirectory(zone), host, zone);
  }

  lemma AliasAllOn(d: Directory, zone: string)
    requires TestShape(d, zone)
    ensures AnswerAlias(d, Name("test2", zone), TypeAll, 1) ==
              Some([AliasRecord(Name("test2", zone), Name("test2-1", zone)),
                    A(Name("test2-1", zone), "127.0.0.1"),
                    AAAA(Name("test2-1", zone), "::1"),
                    AliasRecord(Name("test2", zone), Name("test2-2", zone)),
                    A(Name("test2-2", zone), "127.0.0.1"),
                    AAAA(Name("test2-2", zone), "::1")])
  {
    var n := Name("test2", zone);
    var t1, t2 := Name("test2-1", zone), Name("test2-2", zone);
    LookupKeyIgnoresZone("test2", zone);
    HostAnswers(d, "test2-1", zone);
    HostAnswers(d, "test2-2", zone);
    AllFamiliesTarget(d, n, t1, 1, [A(t1, "127.0.0.1")], [AAAA(t1, "::1")]);
    AllFamiliesTarget(d, n, t2, 1, [A(t2, "127.0.0.1")], [AAAA(t2, "::1")]);
    var b1 := [AliasRecord(n, t1)] + [A(t1, "127.0.0.1")] + [AAAA(t1, "::1")];
    var b2 := [AliasRecord(n, t2)] + [A(t2, "127.0.0.1")] + [AAAA(t2, "::1")];
    TwoTargets(d, n, TypeAll, t1, t2, 1, b1, b2);
    Blocks(AliasRecord(n, t1), A(t1, "127.0.0.1"), AAAA(t1, "::1"), AliasRecord(n, t2), A(t2, "127.0.0.1"), AAAA(t2, "::1"));
  }

  /** TestResolveCNAME: each alias record followed by its target's A and AAAA records. */
  lemma TestResolveCNAME(zone: string)
    ensures AnswerAlias(TestDirectory(zone), Name("test2", zone), TypeAll, 1) ==
              Some([AliasRecord(Name("test2", zone), Name("test2-1", zone)),
                    A(Name("test2-1", zone), "127.0.0.1"),
                    AAAA(Name("test2-1", zone), "::1"),
                    AliasRecord(Name("test2", zone), Name("test2-2", zone)),
                    A(Name("test2-2", zone), "127.0.0.1"),
                    AAAA(Name("test2-2", zone), "::1")])
  {
    TestDirectoryShape(zone);
    AliasAllOn(TestDirectory(zone), zone);
  }

  lemma AliasFamilyOn(d: Directory, f: Family, zone: string)
    requires TestShape(d, zone)
    ensures var addr := if f == IPv4 then "127.0.0.1" else "::1";
            AnswerAddress(d, Name("test2", zone), f, 1) ==
              Some([AliasRecord(Name("test2", zone), Name("test2-1", zone)),
                    AddressRecord(f, Name("test2-1", zone), addr),
                    AliasRecord(Name("test2", zone), Name("test2-2", zone)),
                    AddressRecord(f, Name("test2-2", zone), addr)])
  {
    var addr := if f == IPv4 then "127.0.0.1" else "::1";
    var n := Name("test2", zone);
    var t1, t2 := Name("test2-1", zone), Name("test2-2", zone);
    LookupKeyIgnoresZone("test2", zone);
    assert ListKey(f) !in d["test2"];
    HostAnswers(d, "test2-1", zone);
    HostAnswers(d, "test2-2", zone);
    var r1, r2 := [AddressRecord(f, t1, addr)], [AddressRecord(f, t2, addr)];
    OneFamilyTarget(d, n, f, t1, 1, r1);
    OneFamilyTarget(d, n, f, t2, 1, r2);
    var b1, b2 := [AliasRecord(n, t1)] + r1, [AliasRecord(n, t2)] + r2;
    TwoTargets(d, n, OnlyType(f), t1, t2, 1, b1, b2);
    Pairs(AliasRecord(n, t1), AddressRecord(f, t1, addr), AliasRecord(n, t2), AddressRecord(f, t2, addr));
  }

  /**
   * TestResolveAIsCNAME and TestResolveAAAAIsCNAME: an address query for
   * test2 gives the alias records and the addresses of the asked family only.
   */
  lemma TestResolveAddressThroughAlias(f: Family, zone: string)
    ensures var addr := if f == IPv4 then "127.0.0.1" else "::1";
            AnswerAddress(TestDirectory(zone), Name("test2", zone), f, 1) ==
              Some([AliasRecord(Name("test2", zone), Name("test2-1", zone)),
                    AddressRecord(f, Name("test2-1", zone), addr),
                    AliasRecord(Name("test2", zone), Name("test2-2", zone)),
                    AddressRecord(f, Name("test2-2", zone), addr)])
  {
    TestDirectoryShape(zone);
    AliasFamilyOn(TestDirectory(zone), f, zone);
  }

  /**
   * test3 is not in the directory, so ServeDNS hands the query on; lookups
   * are case-sensitive, so Test1 misses as well.
   */
  lemma TestMisses(zone: string)
    ensures Miss(TestDirectory(zone), Dns.Question(Name("test3", zone), Dns.TypeA))
    ensures Miss(TestDirectory(zone), Dns.Question(Name("Test1", zone), Dns.TypeA))
    ensures !Miss(TestDirectory(zone), Dns.Question(Name("test1", zone), Dns.TypeA))
  {
    TestDirectoryShape(zone);
    LookupKeyIgnoresZone("test3", zone);
    LookupKeyIgnoresZone("Test1", zone);
    LookupKeyIgnoresZone("test1", zone);
  }

  /** Both ServeDNS tests: test1 is answered with success and its one A record. */
  method MatchAnswered(zone: string) returns (outcome: Outcome)
    ensures outcome == Written(Dns.RcodeSuccess,
                               Dns.Reply(7, [Dns.Question(Name("test1", zone), Dns.TypeA)], true,
                                         [A(Name("test1", zone), "127.0.0.1")]))
  {
    var ts := new Tailscale(zone);
    ts.entries := TestDirectory(zone);
    var q := Dns.Question(Name("test1", zone), Dns.TypeA);
    TestResolveAddresses("test1", zone);
    TestMisses(zone);
    outcome := ts.ServeDNS(Dns.Request(7, [q]), 0);
  }

  /**
   * TestServeDNSNoFallback and TestServeDNSFallback on a miss: test3 is
   * handed on whatever the fallthrough setting, since ServeDNS never reads
   * it.  With no next plugin that is a server failure, which
   * TestServeDNSFallback expects and TestServeDNSNoFallback does not (it
   * expects a name error).
   */
  method MissDelegated(zone: string) returns (outcome: Outcome)
    ensures outcome == Delegated(Dns.Request(0, [Dns.Question(Name("test3", zone), Dns.TypeA)]))
  {
    var ts := new Tailscale(zone);
    ts.entries := TestDirectory(zone);
    var q := Dns.Question(Name("test3", zone), Dns.TypeA);
    TestMisses(zone);
    outcome := ts.ServeDNS(Dns.Request(0, [q]), 0);
  }

  // ---------------------------------------------------------------------
  // Alias chains.

  /** a -> b -> c with an address only on c. */
  function ChainDirectory(zone: string): Directory
  {
    map[
      "a" := map["CNAME" := [Fqdn("b", zone)]],
      "b" := map["CNAME" := [Fqdn("c", zone)]],
      "c" := map["A" := ["100.64.0.3"]]
    ]
  }

  /** The last hop of the chain: b to c, and c's address. */
  lemma ChainLastHop(zone: string)
    ensures AnswerAddress(ChainDirectory(zone), Fqdn("b", zone), IPv4, 1) ==
              Some([AliasRecord(Fqdn("b", zone), Fqdn("c", zone)), A(Fqdn("c", zone), "100.64.0.3")])
  {
    var d, b, c := ChainDirectory(zone), Fqdn("b", zone), Fqdn("c", zone);
    FqdnKey("b", zone);
    FqdnKey("c", zone);
    var rc := [A(c, "100.64.0.3")];
    assert "c" in d && d["c"]["A"] == ["100.64.0.3"];
    assert AddressRecords(IPv4, c, ["100.64.0.3"]) == rc;
    assert AnswerAddress(d, c, IPv4, 0) == Some(rc);
    assert "b" in d && "A" !in d["b"] && d["b"]["CNAME"] == [c];
    AliasHop(d, b, IPv4, c, 1, rc);
    assert [AliasRecord(b, c)] + rc == [AliasRecord(b, c), A(c, "100.64.0.3")];
  }

  /** The chase goes on past the first alias hop. */
  lemma ChainFollowedPastOneHop(zone: string)
    ensures AnswerAddress(ChainDirectory(zone), Fqdn("a", zone), IPv4, 2) ==
              Some([AliasRecord(Fqdn("a", zone), Fqdn("b", zone)),
                    AliasRecord(Fqdn("b", zone), Fqdn("c", zone)),
                    A(Fqdn("c", zone), "100.64.0.3")])
  {
    var d, a, b, c := ChainDirectory(zone), Fqdn("a", zone), Fqdn("b", zone), Fqdn("c", zone);
    FqdnKey("a", zone);
    ChainLastHop(zone);
    var rb := [AliasRecord(b, c), A(c, "100.64.0.3")];
    assert "a" in d && "A" !in d["a"] && d["a"]["CNAME"] == [b];
    AliasHop(d, a, IPv4, b, 2, rb);
    assert [AliasRecord(a, b)] + rb == [AliasRecord(a, b), rb[0], rb[1]];
  }

  // ---------------------------------------------------------------------
  // Network maps.

  function V6Host(name: string, addr: string, tags: seq<string>): Node
  {
    Node(name, false, true, [Address(Is6, addr)], tags)
  }

  /** Two IPv6-only hosts that name each other in their alias tags. */
  function CycleNodes(): seq<Node>
  {
    [V6Host("a", "fd7a::1", [CnamePrefix + "b"]), V6Host("b", "fd7a::2", [CnamePrefix + "a"])]
  }

  /** a and b have no A list, and each one's alias list names the other. */
  predicate CycleShape(d: Directory, zone: string)
  {
    && "a" in d && "A" !in d["a"] && "CNAME" in d["a"] && d["a"]["CNAME"] == [Fqdn("b", zone)]
    && "b" in d && "A" !in d["b"] && "CNAME" in d["b"] && d["b"]["CNAME"] == [Fqdn("a", zone)]
  }

  /** The keys and alias lists the reference definitions give for the two hosts. */
  lemma CycleKeys()
    ensures KeysOf(CycleNodes()[..1]) == {"a", "b"}
    ensures KeysOf(CycleNodes()) == {"a", "b"}
  {
    var ns := CycleNodes();
    var na := ns[0];
    var ta, tb := CnamePrefix + "b", CnamePrefix + "a";
    assert ns[..1] == [na] && [na][..0] == [];
    CnameTagIff(ta, "b");
    CnameTagIff(tb, "a");
    assert [] + [ta] == [ta] && [] + [tb] == [tb];
    TagLabelsSnoc([], ta);
    TagLabelsSnoc([], tb);
    assert TagLabels([]) == {};
  }

  lemma CycleAliasOfA(zone: string)
    ensures AliasTargets(CycleNodes(), "a", zone) == [Fqdn("b", zone)]
  {
    var ns := CycleNodes();
    var na, nb := ns[0], ns[1];
    var ta, tb := CnamePrefix + "b", CnamePrefix + "a";
    assert na.tags == [ta] && nb.tags == [tb] && nb.computedName == "b" && "b" != "a";
    assert ns[..1] == [na] && [na][..0] == [] && KeysOf([]) == {};
    CnameTagIff(tb, "a");
    assert TagTargets([tb], "a", Fqdn("b", zone)) == [Fqdn("b", zone)];
    assert AliasTargets([na], "a", zone) == [];
  }

  lemma CycleAliasOfB(zone: string)
    ensures AliasTargets(CycleNodes(), "b", zone) == [Fqdn("a", zone)]
  {
    var ns := CycleNodes();
    var na, nb := ns[0], ns[1];
    var ta, tb := CnamePrefix + "b", CnamePrefix + "a";
    assert na.tags == [ta] && nb.tags == [tb] && na.computedName == "a" && "a" != "b";
    assert ns[..1] == [na] && [na][..0] == [];
    CycleKeys();
    CnameTagIff(ta, "b");
    CnameTagIff(tb, "b");
    assert TagTargets([ta], "b", Fqdn("a", zone)) == [Fqdn("a", zone)];
    assert TagTargets([tb], "b", Fqdn("b", zone)) == [];
    assert AliasTargets([na], "b", zone) == [Fqdn("a", zone)];
  }

  lemma CycleAddresses()
    ensures HostAddresses(CycleNodes(), "a", Is4) == [] && HostAddresses(CycleNodes(), "b", Is4) == []
  {
    var ns := CycleNodes();
    var na, nb := ns[0], ns[1];
    assert ns[..1] == [na] && [na][..0] == [];
    assert na.addresses[1..] == [] && nb.addresses[1..] == [];
    assert Texts(na.addresses, Is4) == [];
    assert Texts(nb.addresses, Is4) == [];
    assert na.computedName == "a" && nb.computedName == "b" && "a" != "b";
    assert HostAddresses([na], "a", Is4) == [] && HostAddresses([na], "b", Is4) == [];
  }

  lemma CycleBuilt(zone: string)
    ensures CycleShape(Build(CycleNodes(), zone), zone)
  {
    var ns := CycleNodes();
    var d := Build(ns, zone);
    CycleKeys();
    CycleAliasOfA(zone);
    CycleAliasOfB(zone);
    CycleAddresses();
    BuildKeys(ns, zone);
    BuildShaped(ns, zone);
    BuildAliases(ns, zone, "a");
    BuildAliases(ns, zone, "b");
    BuildAddresses(ns, zone, "a");
    BuildAddresses(ns, zone, "b");
    assert "a" in d && "b" in d;
    assert ShapedEntry(d["a"]) && ShapedEntry(d["b"]);
  }

  lemma {:induction false} CycleNeverAnswersOn(d: Directory, zone: string, fuel: nat)
    requires CycleShape(d, zone)
    ensures AnswerAddress(d, Fqdn("a", zone), IPv4, fuel).None?
    ensures AnswerAddress(d, Fqdn("b", zone), IPv4, fuel).None?
  {
    var a, b := Fqdn("a", zone), Fqdn("b", zone);
    FqdnKey("a", zone);
    FqdnKey("b", zone);
    if fuel > 0 {
      CycleNeverAnswersOn(d, zone, fuel - 1);
    }
    TargetsSingle(d, a, TypeA, b, fuel);
    TargetsSingle(d, b, TypeA, a, fuel);
  }

  /**
   * On the directory processNetMap builds from those two hosts an A query
   * never returns: every amount of fuel runs out while the chase circles.
   */
  lemma CycleNeverAnswers(zone: string, fuel: nat)
    ensures AnswerAddress(Build(CycleNodes(), zone), Fqdn("a", zone), IPv4, fuel).None?
  {
    CycleBuilt(zone);
    CycleNeverAnswersOn(Build(CycleNodes(), zone), zone, fuel);
  }

  /**
   * A cycle does no harm to a query for a family the key lists: the alias
   * list of a key is read only when the key lacks the asked list.
   */
  lemma CycleThroughAddressHostAnswers(zone: string)
    ensures var d := map["a" := map["A" := ["100.64.0.1"], "CNAME" := [Fqdn("a", zone)]]];
            AnswerAddress(d, Fqdn("a", zone), IPv4, 0) == Some([A(Fqdn("a", zone), "100.64.0.1")])
  {
    var d := map["a" := map["A" := ["100.64.0.1"], "CNAME" := [Fqdn("a", zone)]]];
    FqdnKey("a", zone);
    assert AddressRecords(IPv4, Fqdn("a", zone), ["100.64.0.1"]) == [A(Fqdn("a", zone), "100.64.0.1")];
  }

  /** A host tagged with an alias for its own, not yet known, hostname loses that alias. */
  lemma SelfAliasLost(zone: string)
    ensures GetList(Build([V6Host("web", "fd7a::1", [CnamePrefix + "web"])], zone), "web", "CNAME") == []
  {
    var ns := [V6Host("web", "fd7a::1", [CnamePrefix + "web"])];
    assert ns[..0] == [];
    assert KeysOf([]) == {};
    assert AliasTargets(ns, "web", zone) == [];
    BuildAliases(ns, zone, "web");
  }

  /** The same tag survives once an earlier node has created the entry. */
  lemma SelfAliasKeptWhenKnown(zone: string)
    ensures GetList(Build([V6Host("db", "fd7a::2", [CnamePrefix + "web"]),
                           V6Host("web", "fd7a::1", [CnamePrefix + "web"])], zone), "web", "CNAME") ==
            [Fqdn("db", zone), Fqdn("web", zone)]
  {
    var ns := [V6Host("db", "fd7a::2", [CnamePrefix + "web"]), V6Host("web", "fd7a::1", [CnamePrefix + "web"])];
    var tag := CnamePrefix + "web";
    var ndb, nweb := ns[0], ns[1];
    assert ndb.tags == [tag] && nweb.tags == [tag];
    assert ndb.computedName == "db" && nweb.computedName == "web" && "db" != "web";
    assert ns[..1] == [ndb] && [ndb][..0] == [];
    assert [] + [tag] == [tag];
    TagLabelsSnoc([], tag);
    CnameTagIff(tag, "web");
    assert TagLabels([]) == {};
    assert KeysOf([ndb]) == {"db", "web"};
    assert TagTargets([tag], "web", Fqdn("db", zone)) == [Fqdn("db", zone)];
    assert TagTargets([tag], "web", Fqdn("web", zone)) == [Fqdn("web", zone)];
    assert AliasTargets([ndb], "web", zone) == [Fqdn("db", zone)];
    assert AliasTargets(ns, "web", zone) == [Fqdn("db", zone), Fqdn("web", zone)];
    BuildAliases(ns, zone, "web");
  }
}
