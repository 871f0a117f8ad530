/**
 * The plugin object: the directory it serves from, the resolvers of
 * serve.go that append to a reply message in place, ServeDNS, and
 * processNetMap of tailscale.go that replaces the directory.
 */
module Plugin {
  import opened Wrappers
  import opened Directory
  import opened Resolution
  import opened NetMap
  import Dns

  /**
   * What ServeDNS does with a query: write an answer and return its
   * code, or hand the query on to the next plugin (or fail if there is
   * none), whose outcome becomes ServeDNS's.
   */
  datatype Outcome =
    | Written(rcode: int, reply: Dns.Reply)
    | Delegated(request: Dns.Request)

  /** Regroupings of appends, used where a resolver's answer grows by a block. */
  lemma Concat3(a: seq<Dns.RR>, b: seq<Dns.RR>, c: seq<Dns.RR>)
    ensures a + b + c == a + (b + c)
  {
  }

  lemma Concat4(a: seq<Dns.RR>, b: seq<Dns.RR>, c: seq<Dns.RR>, d: seq<Dns.RR>)
    ensures a + b + c + d == a + (b + c + d)
  {
  }

  /** The key of an alias target "<hostname>.<zone>." is the hostname, whatever the zone. */
  lemma FqdnKey(h: string, zone: string)
    requires '.' !in h
    ensures LookupKey(Fqdn(h, zone)) == h
  {
    assert Fqdn(h, zone) == h + "." + (zone + ".");
    LookupKeyIgnoresZone(h, zone + ".");
  }

  /**
   * With dot-free hostnames, every alias target processNetMap records
   * leads the resolver back to a key of the same directory: the host
   * that carries the tag.
   */
  lemma AliasTargetsAreKeys(nodes: seq<Node>, zone: string, key: string, t: string)
    requires forall i :: 0 <= i < |nodes| ==> '.' !in nodes[i].computedName
    requires t in GetList(Build(nodes, zone), key, "CNAME")
    ensures LookupKey(t) in Build(nodes, zone)
  {
    BuildAliases(nodes, zone, key);
    AliasTargetsFromTags(nodes, key, zone, t);
    var i :| 0 <= i < |nodes| && Included(nodes[i]) && CnamePrefix + key in nodes[i].tags &&
             t == Fqdn(nodes[i].computedName, zone);
    FqdnKey(nodes[i].computedName, zone);
    KeysOfHostname(nodes, i);
    BuildKeys(nodes, zone);
  }

  class Tailscale {
    /** The served zone, as configured. */
    const zone: string
    /** The current snapshot, replaced wholesale by ProcessNetMap. */
    var entries: Directory

    constructor (zone: string)
      ensures this.zone == zone && entries == map[]
    {
      this.zone := zone;
      entries := map[];
    }

    /**
     * resolveA: the A list of the name's key, one record per address,
     * or else the alias fallback restricted to A records.  `fuel` is a
     * bound on the alias hops the call makes; see module Resolution.
     */
    method ResolveA(domainName: string, msg: Dns.Msg, ghost fuel: nat)
      requires AnswerAddress(entries, domainName, IPv4, fuel).Some?
      modifies msg`answer
      ensures msg.answer == old(msg.answer) + AnswerAddress(entries, domainName, IPv4, fuel).value
      decreases fuel, 2, 0
    {
      var name := LookupKey(domainName);
      if name in entries && "A" in entries[name] {
        var list := entries[name]["A"];
        for i := 0 to |list|
          invariant msg.answer == old(msg.answer) + AddressRecords(IPv4, domainName, list[..i])
        {
          msg.answer := msg.answer + [Dns.A(Dns.Header(domainName, Dns.TypeA, Dns.ClassINET, 60), list[i])];
          assert list[..i + 1][..i] == list[..i];
        }
        assert list[..|list|] == list;
      } else {
        ResolveCNAME(domainName, msg, TypeA, fuel);
      }
    }

    /** resolveAAAA: as ResolveA, for the AAAA list. */
    method ResolveAAAA(domainName: string, msg: Dns.Msg, ghost fuel: nat)
      requires AnswerAddress(entries, domainName, IPv6, fuel).Some?
      modifies msg`answer
      ensures msg.answer == old(msg.answer) + AnswerAddress(entries, domainName, IPv6, fuel).value
      decreases fuel, 2, 0
    {
      var name := LookupKey(domainName);
      if name in entries && "AAAA" in entries[name] {
        var list := entries[name]["AAAA"];
        for i := 0 to |list|
          invariant msg.answer == old(msg.answer) + AddressRecords(IPv6, domainName, list[..i])
        {
          msg.answer := msg.answer + [Dns.AAAA(Dns.Header(domainName, Dns.TypeAAAA, Dns.ClassINET, 60), list[i])];
          assert list[..i + 1][..i] == list[..i];
        }
        assert list[..|list|] == list;
      } else {
        ResolveCNAME(domainName, msg, TypeAAAA, fuel);
      }
    }

    /**
     * resolveCNAME: for each alias target of the name's key, a CNAME
     * record and then, as the filter asks, the target's A and AAAA
     * answers.  No alias list: the message is left as it is.
     */
    method ResolveCNAME(domainName: string, msg: Dns.Msg, lookupType: LookupType, ghost fuel: nat)
      requires AnswerAlias(entries, domainName, lookupType, fuel).Some?
      modifies msg`answer
      ensures msg.answer == old(msg.answer) + AnswerAlias(entries, domainName, lookupType, fuel).value
      decreases fuel, 1, 0
    {
      var name := LookupKey(domainName);
      if name in entries && "CNAME" in entries[name] {
        var targets := entries[name]["CNAME"];
        ghost var d := entries;
        for i := 0 to |targets|
          invariant entries == d
          invariant AnswerTargets(d, domainName, lookupType, targets[..i], fuel).Some?
          invariant msg.answer == old(msg.answer) + AnswerTargets(d, domainName, lookupType, targets[..i], fuel).value
        {
          var target := targets[i];
          TargetsStep(d, domainName, lookupType, targets, i, fuel);
          ResolveTarget(domainName, target, msg, lookupType, fuel);
          Concat3(old(msg.answer), AnswerTargets(d, domainName, lookupType, targets[..i], fuel).value,
                  AnswerTarget(d, domainName, lookupType, target, fuel).value);
        }
        assert targets[..|targets|] == targets;
      }
    }

    /**
     * One iteration of resolveCNAME's loop: the alias record for `target`,
     * then, as the filter asks, the target's A and AAAA answers.
     */
    method ResolveTarget(domainName: string, target: string, msg: Dns.Msg, lookupType: LookupType, ghost fuel: nat)
      requires AnswerTarget(entries, domainName, lookupType, target, fuel).Some?
      modifies msg`answer
      ensures msg.answer == old(msg.answer) + AnswerTarget(entries, domainName, lookupType, target, fuel).value
      decreases fuel, 0, 0
    {
      TargetUnfold(entries, domainName, lookupType, target, fuel);
      assert Wants(lookupType, IPv4) <==> lookupType == TypeAll || lookupType == TypeA;
      assert Wants(lookupType, IPv6) <==> lookupType == TypeAll || lookupType == TypeAAAA;
      ghost var v4 := if lookupType == TypeAll || lookupType == TypeA then AnswerAddress(entries, target, IPv4, fuel - 1).value else [];
      ghost var v6 := if lookupType == TypeAll || lookupType == TypeAAAA then AnswerAddress(entries, target, IPv6, fuel - 1).value else [];
      msg.answer := msg.answer + [Dns.CNAME(Dns.Header(domainName, Dns.TypeCNAME, Dns.ClassINET, 60), target)];
      ghost var afterAlias := msg.answer;
      if lookupType == TypeAll || lookupType == TypeA {
        ResolveA(target, msg, fuel - 1);
      }
      assert msg.answer == afterAlias + v4;
      ghost var afterA := msg.answer;
      if lookupType == TypeAll || lookupType == TypeAAAA {
        ResolveAAAA(target, msg, fuel - 1);
      }
      assert msg.answer == afterA + v6;
      assert msg.answer == old(msg.answer) + ([AliasRecord(domainName, target)] + v4 + v6) by {
        Concat4(old(msg.answer), [AliasRecord(domainName, target)], v4, v6);
      }
    }

    /**
     * ServeDNS: route by query type, answer authoritatively with success
     * if anything was found, otherwise delegate.  The fallthrough setting
     * is never consulted.
     */
    method ServeDNS(r: Dns.Request, ghost fuel: nat) returns (outcome: Outcome)
      requires |r.question| > 0
      requires QueryAnswer(entries, r.question[0], fuel).Some?
      ensures outcome.Written? <==> !Miss(entries, r.question[0])
      ensures outcome.Written? ==>
                outcome == Written(Dns.RcodeSuccess,
                                   Dns.Reply(r.id, [r.question[0]], true, QueryAnswer(entries, r.question[0], fuel).value))
      ensures Miss(entries, r.question[0]) ==> outcome == Delegated(r)
      ensures r.question[0].qtype !in {Dns.TypeA, Dns.TypeAAAA, Dns.TypeCNAME} ==> outcome.Delegated?
    {
      var msg := new Dns.Msg();
      msg.SetReply(r);
      msg.authoritative := true;

      var q := r.question[0];
      if q.qtype == Dns.TypeA {
        ResolveA(q.name, msg, fuel);
      } else if q.qtype == Dns.TypeAAAA {
        ResolveAAAA(q.name, msg, fuel);
      } else if q.qtype == Dns.TypeCNAME {
        ResolveCNAME(q.name, msg, TypeAll, fuel);
      }
      QueryEmptyIff(entries, q, fuel);

      if |msg.answer| > 0 {
        outcome := Written(Dns.RcodeSuccess, Dns.Reply(msg.id, msg.question, msg.authoritative, msg.answer));
      } else {
        outcome := Delegated(r);
      }
    }

    /**
     * processNetMap: no map, no change; otherwise the directory is rebuilt
     * from scratch from the self node and the peers and then replaces
     * the current one, so nothing of the previous snapshot survives.
     */
    method ProcessNetMap(nm: Option<NetworkMap>)
      modifies this`entries
      ensures nm.None? ==> entries == old(entries)
      ensures nm.Some? ==> entries == Build(Nodes(nm.value), zone)
    {
      if nm.None? {
        return;
      }
      var nodes := [nm.value.selfNode] + nm.value.peers;

      var built: Directory := map[];
      for i := 0 to |nodes|
        invariant built == Build(nodes[..i], zone)
      {
        assert nodes[..i + 1][..i] == nodes[..i];
        var node := nodes[i];
        ghost var start := built;
        if node.isWireGuardOnly {
          continue;
        }
        if !node.sharerIsZero {
          continue;
        }

        var hostname := node.computedName;
        var existed := hostname in built;
        var entry: Entry := if existed then built[hostname] else map[];

        ghost var entry0 := entry;
        var addrs := node.addresses;
        for j := 0 to |addrs|
          invariant entry == AddAddresses(entry0, addrs[..j])
        {
          assert addrs[..j + 1][..j] == addrs[..j];
          var addr := addrs[j];
          if addr.family == Is4 {
            entry := entry["A" := Get(entry, "A") + [addr.text]];
          } else if addr.family == Is6 {
            entry := entry["AAAA" := Get(entry, "AAAA") + [addr.text]];
          }
        }
        assert addrs[..|addrs|] == addrs;
        assert entry == AddAddresses(if existed then start[hostname] else map[], node.addresses);
        // An entry found in the map is the map stored there: its updates are already in place.
        if existed {
          built := built[hostname := entry];
        }

        ghost var before := built;
        var tags := node.tags;
        if |tags| > 0 {
          for k := 0 to |tags|
            invariant built == ApplyTags(before, Fqdn(hostname, zone), tags[..k])
          {
            assert tags[..k + 1][..k] == tags[..k];
            var raw := tags[k];
            ghost var prev := built;
            if CnamePrefix <= raw {
              var tag := raw[|CnamePrefix|..];
              ghost var inner := if tag in built then built[tag] else map[];
              if tag !in built {
                built := built[tag := map[]];
              }
              assert built[tag] == inner;
              built := built[tag := built[tag]["CNAME" := Get(built[tag], "CNAME") + [hostname + "." + zone + "."]]];
            }
            assert built == AddTag(prev, Fqdn(hostname, zone), raw);
          }
        }
        assert tags[..|tags|] == tags;
        assert built == ApplyTags(before, Fqdn(hostname, zone), node.tags);

        if !existed {
          built := built[hostname := entry];
        }
        assert built == Step(start, node, zone);
      }
      assert nodes[..|nodes|] == nodes;
      entries := built;
    }
  }
}
