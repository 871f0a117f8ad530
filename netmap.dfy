/**
 * processNetMap of tailscale.go: building a fresh directory from the
 * network map (the self node followed by the peers).
 *
 * The functions below follow the loops of processNetMap one iteration at
 * a time (Build over nodes, AddAddresses over a node's addresses,
 * ApplyTags over its tags); the lemmas characterise the result by
 * independent definitions (KeysOf, HostAddresses, AliasTargets).
 *
 * Go maps are references.  When a node's hostname is already a key,
 * `entry` is the very map stored there, so the address appends and any
 * alias appended to that hostname through `entries[tag]` land in one
 * map.  When it is not, `entry` is a new map, and the final
 * `entries[hostname] = entry` replaces whatever the node's own tags had
 * created under that hostname.  Step spells out both cases on values.
 */
module NetMap {
  import opened Directory

  /** What netip.Addr reports: Is4, Is6, or neither (the zero address). */
  datatype AddrFamily = Is4 | Is6 | Neither

  /** An address of a node, with the text addr.String() gives. */
  datatype Address = Address(family: AddrFamily, text: string)

  /** The parts of a node view that processNetMap reads. */
  datatype Node = Node(
    computedName: string,
    isWireGuardOnly: bool,
    sharerIsZero: bool,
    addresses: seq<Address>,
    tags: seq<string>)

  datatype NetworkMap = NetworkMap(selfNode: Node, peers: seq<Node>)

  const CnamePrefix: string := "tag:cname-"

  /** The nodes in processing order: the self node first, then the peers. */
  function Nodes(nm: NetworkMap): (ns: seq<Node>)
    ensures |ns| == |nm.peers| + 1 && ns[0] == nm.selfNode && ns[1..] == nm.peers
  {
    [nm.selfNode] + nm.peers
  }

  /** WireGuard-only nodes (exit nodes) and nodes shared from another tailnet are skipped. */
  predicate Included(n: Node)
  {
    !n.isWireGuardOnly && n.sharerIsZero
  }

  /** The alias target recorded for a tagged host: "<hostname>.<zone>." */
  function Fqdn(hostname: string, zone: string): string
  {
    hostname + "." + zone + "."
  }

  predicate IsCnameTag(raw: string)
  {
    CnamePrefix <= raw
  }

  /** The key a `tag:cname-<key>` tag names. */
  function CnameLabel(raw: string): string
    requires IsCnameTag(raw)
  {
    raw[|CnamePrefix|..]
  }

  /** The address loop: IPv4 text appended under "A", IPv6 under "AAAA", others ignored. */
  function AddAddresses(entry: Entry, addrs: seq<Address>): Entry
    decreases |addrs|
  {
    if addrs == [] then entry
    else
      var e := AddAddresses(entry, addrs[..|addrs| - 1]);
      var a := addrs[|addrs| - 1];
      match a.family
      case Is4 => e["A" := Get(e, "A") + [a.text]]
      case Is6 => e["AAAA" := Get(e, "AAAA") + [a.text]]
      case Neither => e
  }

  /** One iteration of the tag loop: an alias tag appends `fqdn` to the CNAME list of its key. */
  function AddTag(entries: Directory, fqdn: string, raw: string): Directory
  {
    if IsCnameTag(raw) then
      var tag := CnameLabel(raw);
      var inner := if tag in entries then entries[tag] else map[];
      entries[tag := inner["CNAME" := Get(inner, "CNAME") + [fqdn]]]
    else entries
  }

  function ApplyTags(entries: Directory, fqdn: string, tags: seq<string>): Directory
    decreases |tags|
  {
    if tags == [] then entries
    else AddTag(ApplyTags(entries, fqdn, tags[..|tags| - 1]), fqdn, tags[|tags| - 1])
  }

  /** One iteration of the node loop. */
  function Step(entries: Directory, node: Node, zone: string): Directory
  {
    if !Included(node) then entries
    else
      var h := node.computedName;
      var fqdn := Fqdn(h, zone);
      if h in entries then ApplyTags(entries[h := AddAddresses(entries[h], node.addresses)], fqdn, node.tags)
      else ApplyTags(entries, fqdn, node.tags)[h := AddAddresses(map[], node.addresses)]
  }

  /** The directory processNetMap builds from `nodes`, starting from an empty map. */
  function Build(nodes: seq<Node>, zone: string): Directory
    decreases |nodes|
  {
    if nodes == [] then map[] else Step(Build(nodes[..|nodes| - 1], zone), nodes[|nodes| - 1], zone)
  }

  // ---------------------------------------------------------------------
  // Reference definitions.

  /** The texts of the addresses of one family, in address order. */
  function Texts(addrs: seq<Address>, fam: AddrFamily): seq<string>
    decreases |addrs|
  {
    if addrs == [] then []
    else (if addrs[0].family == fam then [addrs[0].text] else []) + Texts(addrs[1..], fam)
  }

  /** The keys the alias tags of a tag list name. */
  function TagLabels(tags: seq<string>): set<string>
  {
    set j | 0 <= j < |tags| && IsCnameTag(tags[j]) :: CnameLabel(tags[j])
  }

  /** `fqdn` once for every tag naming `key`. */
  function TagTargets(tags: seq<string>, key: string, fqdn: string): seq<string>
    decreases |tags|
  {
    if tags == [] then []
    else (if tags[0] == CnamePrefix + key then [fqdn] else []) + TagTargets(tags[1..], key, fqdn)
  }

  /** The hostnames of the included nodes and the keys their alias tags name. */
  function KeysOf(nodes: seq<Node>): set<string>
    decreases |nodes|
  {
    if nodes == [] then {}
    else
      var n := nodes[|nodes| - 1];
      KeysOf(nodes[..|nodes| - 1]) + (if Included(n) then {n.computedName} + TagLabels(n.tags) else {})
  }

  /** The addresses of one family of all included nodes named `h`, in node order. */
  function HostAddresses(nodes: seq<Node>, h: string, fam: AddrFamily): seq<string>
    decreases |nodes|
  {
    if nodes == [] then []
    else
      var n := nodes[|nodes| - 1];
      HostAddresses(nodes[..|nodes| - 1], h, fam) + (if Included(n) && n.computedName == h then Texts(n.addresses, fam) else [])
  }

  /**
   * The alias targets recorded for `key`: one per alias tag naming it, in
   * node order, except that an included node named `key` that finds no
   * entry for `key` yet wipes the list (its own tags for `key` included).
   */
  function AliasTargets(nodes: seq<Node>, key: string, zone: string): seq<string>
    decreases |nodes|
  {
    if nodes == [] then []
    else
      var prefix := nodes[..|nodes| - 1];
      var n := nodes[|nodes| - 1];
      if !Included(n) then AliasTargets(prefix, key, zone)
      else if n.computedName == key && key !in KeysOf(prefix) then []
      else AliasTargets(prefix, key, zone) + TagTargets(n.tags, key, Fqdn(n.computedName, zone))
  }

  /** The included nodes, in order. */
  function IncludedNodes(nodes: seq<Node>): (r: seq<Node>)
    ensures forall n :: n in r <==> n in nodes && Included(n)
    decreases |nodes|
  {
    if nodes == [] then []
    else
      var n := nodes[|nodes| - 1];
      IncludedNodes(nodes[..|nodes| - 1]) + (if Included(n) then [n] else [])
  }

  /** A single node is kept exactly when it is included. */
  lemma IncludedNodesSingle(n: Node)
    ensures IncludedNodes([n]) == if Included(n) then [n] else []
  {
    assert [n][..0] == [];
  }

  /** Filtering distributes over concatenation, so order and multiplicity are kept. */
  lemma {:induction false} IncludedNodesAppend(a: seq<Node>, b: seq<Node>)
    ensures IncludedNodes(a + b) == IncludedNodes(a) + IncludedNodes(b)
    decreases |b|
  {
    if b == [] {
      assert a + b == a;
    } else {
      var c, b' := a + b, b[..|b| - 1];
      var n := b[|b| - 1];
      assert c[..|c| - 1] == a + b' && c[|c| - 1] == n;
      IncludedNodesAppend(a, b');
      var tail := if Included(n) then [n] else [];
      assert IncludedNodes(c) == IncludedNodes(a) + IncludedNodes(b') + tail;
      assert IncludedNodes(b) == IncludedNodes(b') + tail;
    }
  }

  // ---------------------------------------------------------------------
  // Lemmas about one iteration.

  lemma AppendEmpty(x: seq<string>)
    ensures x + [] == x
  {
  }

  lemma EmptyAppend(x: seq<string>)
    ensures [] + x == x
  {
  }

  /** Regrouping of appends. */
  lemma Assoc(x: seq<string>, y: seq<string>, z: seq<string>)
    ensures x + y + z == x + (y + z)
  {
  }

  lemma {:induction false} TextsAppend(a: seq<Address>, b: seq<Address>, fam: AddrFamily)
    ensures Texts(a + b, fam) == Texts(a, fam) + Texts(b, fam)
    decreases |a|
  {
    if a == [] {
      assert a + b == b;
    } else {
      assert (a + b)[0] == a[0];
      assert (a + b)[1..] == a[1..] + b;
      TextsAppend(a[1..], b, fam);
      Assoc(if a[0].family == fam then [a[0].text] else [], Texts(a[1..], fam), Texts(b, fam));
    }
  }

  lemma {:induction false} TagTargetsAppend(a: seq<string>, b: seq<string>, key: string, fqdn: string)
    ensures TagTargets(a + b, key, fqdn) == TagTargets(a, key, fqdn) + TagTargets(b, key, fqdn)
    decreases |a|
  {
    if a == [] {
      assert a + b == b;
    } else {
      assert (a + b)[0] == a[0];
      assert (a + b)[1..] == a[1..] + b;
      TagTargetsAppend(a[1..], b, key, fqdn);
      Assoc(if a[0] == CnamePrefix + key then [fqdn] else [], TagTargets(a[1..], key, fqdn), TagTargets(b, key, fqdn));
    }
  }

  /** A tag names `key` exactly when it is "tag:cname-" followed by `key`. */
  lemma CnameTagIff(raw: string, key: string)
    ensures (IsCnameTag(raw) && CnameLabel(raw) == key) <==> raw == CnamePrefix + key
  {
    if raw == CnamePrefix + key {
      assert raw[..|CnamePrefix|] == CnamePrefix;
      assert raw[|CnamePrefix|..] == key;
    }
    if IsCnameTag(raw) {
      assert raw == raw[..|CnamePrefix|] + raw[|CnamePrefix|..];
    }
  }

  /** One iteration of the address loop, in the terms AddAddressesEffect states. */
  lemma AddAddressStep(e: Entry, a: Address)
    ensures var r := AddAddresses(e, [a]);
            Get(r, "A") == Get(e, "A") + Texts([a], Is4) &&
            Get(r, "AAAA") == Get(e, "AAAA") + Texts([a], Is6) &&
            (forall kind :: kind != "A" && kind != "AAAA" ==> Get(r, kind) == Get(e, kind)) &&
            (ShapedEntry(e) ==> ShapedEntry(r))
  {
    assert [a][..0] == [];
    assert [a][1..] == [];
  }

  /** The address loop appends exactly the node's texts of each family and touches nothing else. */
  lemma {:induction false} AddAddressesEffect(entry: Entry, addrs: seq<Address>)
    ensures Get(AddAddresses(entry, addrs), "A") == Get(entry, "A") + Texts(addrs, Is4)
    ensures Get(AddAddresses(entry, addrs), "AAAA") == Get(entry, "AAAA") + Texts(addrs, Is6)
    ensures forall kind :: kind != "A" && kind != "AAAA" ==> Get(AddAddresses(entry, addrs), kind) == Get(entry, kind)
    ensures ShapedEntry(entry) ==> ShapedEntry(AddAddresses(entry, addrs))
    decreases |addrs|
  {
    if addrs != [] {
      var init := addrs[..|addrs| - 1];
      var a := addrs[|addrs| - 1];
      assert addrs == init + [a];
      AddAddressesEffect(entry, init);
      TextsAppend(init, [a], Is4);
      TextsAppend(init, [a], Is6);
      var e := AddAddresses(entry, init);
      AddAddressStep(e, a);
      assert AddAddresses(entry, addrs) == AddAddresses(e, [a]);
      Assoc(Get(entry, "A"), Texts(init, Is4), Texts([a], Is4));
      Assoc(Get(entry, "AAAA"), Texts(init, Is6), Texts([a], Is6));
    }
  }


  lemma {:induction false} TagLabelsSnoc(tags: seq<string>, raw: string)
    ensures TagLabels(tags + [raw]) == TagLabels(tags) + (if IsCnameTag(raw) then {CnameLabel(raw)} else {})
  {
    var all := tags + [raw];
    forall k | k in TagLabels(all)
      ensures k in TagLabels(tags) + (if IsCnameTag(raw) then {CnameLabel(raw)} else {})
    {
      var j :| 0 <= j < |all| && IsCnameTag(all[j]) && CnameLabel(all[j]) == k;
      if j < |tags| {
        assert all[j] == tags[j];
      }
    }
    forall k | k in TagLabels(tags) ensures k in TagLabels(all) {
      var j :| 0 <= j < |tags| && IsCnameTag(tags[j]) && CnameLabel(tags[j]) == k;
      assert all[j] == tags[j];
    }
    if IsCnameTag(raw) {
      assert all[|tags|] == raw;
    }
  }

  /** One iteration of the tag loop, in the terms ApplyTagsEffect states. */
  lemma AddTagEffect(e: Directory, fqdn: string, raw: string)
    ensures AddTag(e, fqdn, raw).Keys == e.Keys + (if IsCnameTag(raw) then {CnameLabel(raw)} else {})
    ensures forall k, kind :: kind != "CNAME" ==> GetList(AddTag(e, fqdn, raw), k, kind) == GetList(e, k, kind)
    ensures forall k :: GetList(AddTag(e, fqdn, raw), k, "CNAME") ==
                          GetList(e, k, "CNAME") + (if raw == CnamePrefix + k then [fqdn] else [])
    ensures WellShaped(e) ==> WellShaped(AddTag(e, fqdn, raw))
  {
    var r := AddTag(e, fqdn, raw);
    forall k ensures GetList(r, k, "CNAME") == GetList(e, k, "CNAME") + (if raw == CnamePrefix + k then [fqdn] else []) {
      CnameTagIff(raw, k);
    }
  }

  /** The tag loop adds exactly the keys its alias tags name. */
  lemma {:induction false} ApplyTagsKeys(entries: Directory, fqdn: string, tags: seq<string>)
    ensures ApplyTags(entries, fqdn, tags).Keys == entries.Keys + TagLabels(tags)
    decreases |tags|
  {
    if tags == [] {
      assert TagLabels(tags) == {};
    } else {
      var init := tags[..|tags| - 1];
      var raw := tags[|tags| - 1];
      assert tags == init + [raw];
      ApplyTagsKeys(entries, fqdn, init);
      TagLabelsSnoc(init, raw);
      AddTagEffect(ApplyTags(entries, fqdn, init), fqdn, raw);
    }
  }

  /** The tag loop changes nothing but CNAME lists; a key it creates holds nothing else. */
  lemma {:induction false} ApplyTagsKeepsAddresses(entries: Directory, fqdn: string, tags: seq<string>)
    ensures forall k, kind :: kind != "CNAME" ==> GetList(ApplyTags(entries, fqdn, tags), k, kind) == GetList(entries, k, kind)
    decreases |tags|
  {
    if tags != [] {
      var init := tags[..|tags| - 1];
      ApplyTagsKeepsAddresses(entries, fqdn, init);
      AddTagEffect(ApplyTags(entries, fqdn, init), fqdn, tags[|tags| - 1]);
    }
  }

  /** The tag loop appends `fqdn` to a key's CNAME list once per tag naming the key. */
  lemma {:induction false} ApplyTagsAliases(entries: Directory, fqdn: string, tags: seq<string>)
    ensures forall k :: GetList(ApplyTags(entries, fqdn, tags), k, "CNAME") ==
                          GetList(entries, k, "CNAME") + TagTargets(tags, k, fqdn)
    decreases |tags|
  {
    if tags != [] {
      var init := tags[..|tags| - 1];
      var raw := tags[|tags| - 1];
      assert tags == init + [raw];
      ApplyTagsAliases(entries, fqdn, init);
      var e := ApplyTags(entries, fqdn, init);
      AddTagEffect(e, fqdn, raw);
      forall k
        ensures GetList(AddTag(e, fqdn, raw), k, "CNAME") == GetList(entries, k, "CNAME") + TagTargets(tags, k, fqdn)
      {
        TagTargetsAppend(init, [raw], k, fqdn);
        assert TagTargets([raw], k, fqdn) == (if raw == CnamePrefix + k then [fqdn] else []);
      }
    }
  }

  lemma {:induction false} ApplyTagsShaped(entries: Directory, fqdn: string, tags: seq<string>)
    requires WellShaped(entries)
    ensures WellShaped(ApplyTags(entries, fqdn, tags))
    decreases |tags|
  {
    if tags != [] {
      var init := tags[..|tags| - 1];
      ApplyTagsShaped(entries, fqdn, init);
      AddTagEffect(ApplyTags(entries, fqdn, init), fqdn, tags[|tags| - 1]);
    }
  }

  lemma ApplyTagsEffect(entries: Directory, fqdn: string, tags: seq<string>)
    ensures ApplyTags(entries, fqdn, tags).Keys == entries.Keys + TagLabels(tags)
    ensures forall k, kind :: kind != "CNAME" ==> GetList(ApplyTags(entries, fqdn, tags), k, kind) == GetList(entries, k, kind)
    ensures forall k :: GetList(ApplyTags(entries, fqdn, tags), k, "CNAME") ==
                          GetList(entries, k, "CNAME") + TagTargets(tags, k, fqdn)
    ensures WellShaped(entries) ==> WellShaped(ApplyTags(entries, fqdn, tags))
  {
    ApplyTagsKeys(entries, fqdn, tags);
    ApplyTagsKeepsAddresses(entries, fqdn, tags);
    ApplyTagsAliases(entries, fqdn, tags);
    if WellShaped(entries) {
      ApplyTagsShaped(entries, fqdn, tags);
    }
  }

  // One iteration of the node loop.  A node whose hostname is already a
  // key has its entry updated where it is stored; otherwise its new entry
  // replaces whatever its own tags put under its hostname.

  /** The keys after one node: its hostname and the keys its alias tags name. */
  lemma StepKeys(e: Directory, n: Node, zone: string)
    requires Included(n)
    ensures Step(e, n, zone).Keys == e.Keys + {n.computedName} + TagLabels(n.tags)
  {
    var h := n.computedName;
    if h in e {
      ApplyTagsKeys(e[h := AddAddresses(e[h], n.addresses)], Fqdn(h, zone), n.tags);
    } else {
      ApplyTagsKeys(e, Fqdn(h, zone), n.tags);
    }
  }

  /** One node appends its addresses to its own hostname's lists and to no other. */
  lemma StepAddresses(e: Directory, n: Node, zone: string, k: string)
    requires Included(n)
    ensures GetList(Step(e, n, zone), k, "A") ==
              GetList(e, k, "A") + (if k == n.computedName then Texts(n.addresses, Is4) else [])
    ensures GetList(Step(e, n, zone), k, "AAAA") ==
              GetList(e, k, "AAAA") + (if k == n.computedName then Texts(n.addresses, Is6) else [])
  {
    var h := n.computedName;
    var fqdn := Fqdn(h, zone);
    if h in e {
      AddAddressesEffect(e[h], n.addresses);
      ApplyTagsKeepsAddresses(e[h := AddAddresses(e[h], n.addresses)], fqdn, n.tags);
    } else {
      AddAddressesEffect(map[], n.addresses);
      ApplyTagsKeepsAddresses(e, fqdn, n.tags);
      if k == h {
        EmptyAppend(Texts(n.addresses, Is4));
        EmptyAppend(Texts(n.addresses, Is6));
      }
    }
    if k != h {
      AppendEmpty(GetList(e, k, "A"));
      AppendEmpty(GetList(e, k, "AAAA"));
    }
  }

  /**
   * One node appends its alias target once per tag naming a key, except
   * that a fresh hostname's own list ends up empty.
   */
  lemma StepAliases(e: Directory, n: Node, zone: string, k: string)
    requires Included(n)
    ensures GetList(Step(e, n, zone), k, "CNAME") ==
              if k == n.computedName && k !in e then []
              else GetList(e, k, "CNAME") + TagTargets(n.tags, k, Fqdn(n.computedName, zone))
  {
    var h := n.computedName;
    var fqdn := Fqdn(h, zone);
    if h in e {
      AddAddressesEffect(e[h], n.addresses);
      var e1 := e[h := AddAddresses(e[h], n.addresses)];
      ApplyTagsAliases(e1, fqdn, n.tags);
      assert GetList(e1, k, "CNAME") == GetList(e, k, "CNAME");
    } else {
      AddAddressesEffect(map[], n.addresses);
      ApplyTagsAliases(e, fqdn, n.tags);
    }
  }

  lemma StepShaped(e: Directory, n: Node, zone: string)
    requires Included(n) && WellShaped(e)
    ensures WellShaped(Step(e, n, zone))
  {
    var h := n.computedName;
    var fqdn := Fqdn(h, zone);
    if h in e {
      AddAddressesEffect(e[h], n.addresses);
      ApplyTagsShaped(e[h := AddAddresses(e[h], n.addresses)], fqdn, n.tags);
    } else {
      AddAddressesEffect(map[], n.addresses);
      ApplyTagsShaped(e, fqdn, n.tags);
      assert ShapedEntry(map[]);
    }
  }

  /** Everything one iteration of the node loop does to the directory. */
  lemma StepEffect(e: Directory, n: Node, zone: string)
    requires Included(n)
    ensures Step(e, n, zone).Keys == e.Keys + {n.computedName} + TagLabels(n.tags)
    ensures forall k :: GetList(Step(e, n, zone), k, "A") ==
                          GetList(e, k, "A") + (if k == n.computedName then Texts(n.addresses, Is4) else [])
    ensures forall k :: GetList(Step(e, n, zone), k, "AAAA") ==
                          GetList(e, k, "AAAA") + (if k == n.computedName then Texts(n.addresses, Is6) else [])
    ensures forall k :: GetList(Step(e, n, zone), k, "CNAME") ==
                          if k == n.computedName && k !in e then []
                          else GetList(e, k, "CNAME") + TagTargets(n.tags, k, Fqdn(n.computedName, zone))
    ensures WellShaped(e) ==> WellShaped(Step(e, n, zone))
  {
    StepKeys(e, n, zone);
    forall k
      ensures GetList(Step(e, n, zone), k, "A") ==
                GetList(e, k, "A") + (if k == n.computedName then Texts(n.addresses, Is4) else [])
      ensures GetList(Step(e, n, zone), k, "AAAA") ==
                GetList(e, k, "AAAA") + (if k == n.computedName then Texts(n.addresses, Is6) else [])
      ensures GetList(Step(e, n, zone), k, "CNAME") ==
                if k == n.computedName && k !in e then []
                else GetList(e, k, "CNAME") + TagTargets(n.tags, k, Fqdn(n.computedName, zone))
    {
      StepAddresses(e, n, zone, k);
      StepAliases(e, n, zone, k);
    }
    if WellShaped(e) {
      StepShaped(e, n, zone);
    }
  }

  // ---------------------------------------------------------------------
  // The built directory.

  /** The keys are exactly the included hostnames and the keys their alias tags name. */
  lemma {:induction false} BuildKeys(nodes: seq<Node>, zone: string)
    ensures Build(nodes, zone).Keys == KeysOf(nodes)
    decreases |nodes|
  {
    if nodes != [] {
      var n := nodes[|nodes| - 1];
      BuildKeys(nodes[..|nodes| - 1], zone);
      if Included(n) {
        StepEffect(Build(nodes[..|nodes| - 1], zone), n, zone);
      }
    }
  }

  /** Only "A", "AAAA" and "CNAME" lists occur, and none is stored empty. */
  lemma {:induction false} BuildShaped(nodes: seq<Node>, zone: string)
    ensures WellShaped(Build(nodes, zone))
    decreases |nodes|
  {
    if nodes != [] {
      var n := nodes[|nodes| - 1];
      BuildShaped(nodes[..|nodes| - 1], zone);
      if Included(n) {
        StepEffect(Build(nodes[..|nodes| - 1], zone), n, zone);
      }
    }
  }

  /**
   * The "A" list of a key holds the IPv4 texts of every included node with
   * that hostname, in node and address order; the "AAAA" list the IPv6 ones.
   */
  lemma {:induction false} BuildAddresses(nodes: seq<Node>, zone: string, h: string)
    ensures GetList(Build(nodes, zone), h, "A") == HostAddresses(nodes, h, Is4)
    ensures GetList(Build(nodes, zone), h, "AAAA") == HostAddresses(nodes, h, Is6)
    decreases |nodes|
  {
    if nodes != [] {
      var n := nodes[|nodes| - 1];
      BuildAddresses(nodes[..|nodes| - 1], zone, h);
      if Included(n) {
        StepEffect(Build(nodes[..|nodes| - 1], zone), n, zone);
      }
    }
  }

  /** The "CNAME" list of a key is AliasTargets: tag order, with the self-tag loss. */
  lemma {:induction false} BuildAliases(nodes: seq<Node>, zone: string, key: string)
    ensures GetList(Build(nodes, zone), key, "CNAME") == AliasTargets(nodes, key, zone)
    decreases |nodes|
  {
    if nodes != [] {
      var prefix := nodes[..|nodes| - 1];
      var n := nodes[|nodes| - 1];
      BuildAliases(prefix, zone, key);
      if Included(n) {
        BuildKeys(prefix, zone);
        StepEffect(Build(prefix, zone), n, zone);
      }
    }
  }

  /** Skipped nodes leave no trace: the directory is built from the included nodes alone. */
  lemma {:induction false} BuildIgnoresExcluded(nodes: seq<Node>, zone: string)
    ensures Build(nodes, zone) == Build(IncludedNodes(nodes), zone)
    decreases |nodes|
  {
    if nodes != [] {
      var prefix := nodes[..|nodes| - 1];
      var n := nodes[|nodes| - 1];
      BuildIgnoresExcluded(prefix, zone);
      if Included(n) {
        var inc := IncludedNodes(prefix) + [n];
        assert inc[..|inc| - 1] == IncludedNodes(prefix);
      } else {
        assert IncludedNodes(nodes) == IncludedNodes(prefix);
      }
    }
  }

  /** Every included node's hostname is a key. */
  lemma {:induction false} KeysOfHostname(nodes: seq<Node>, i: nat)
    requires i < |nodes| && Included(nodes[i])
    ensures nodes[i].computedName in KeysOf(nodes)
    decreases |nodes|
  {
    var prefix := nodes[..|nodes| - 1];
    if i < |prefix| {
      KeysOfHostname(prefix, i);
      assert prefix[i] == nodes[i];
    }
  }

  /**
   * Nothing else fits: a well-shaped directory with the keys of KeysOf and
   * the lists of HostAddresses and AliasTargets is the one Build produces.
   */
  lemma BuildDetermined(nodes: seq<Node>, zone: string, d: Directory)
    requires WellShaped(d) && d.Keys == KeysOf(nodes)
    requires forall key :: key in d ==> GetList(d, key, "A") == HostAddresses(nodes, key, Is4)
    requires forall key :: key in d ==> GetList(d, key, "AAAA") == HostAddresses(nodes, key, Is6)
    requires forall key :: key in d ==> GetList(d, key, "CNAME") == AliasTargets(nodes, key, zone)
    ensures d == Build(nodes, zone)
  {
    var b := Build(nodes, zone);
    BuildKeys(nodes, zone);
    BuildShaped(nodes, zone);
    forall key | key in d
      ensures GetList(d, key, "A") == GetList(b, key, "A")
      ensures GetList(d, key, "AAAA") == GetList(b, key, "AAAA")
      ensures GetList(d, key, "CNAME") == GetList(b, key, "CNAME")
    {
      BuildAddresses(nodes, zone, key);
      BuildAliases(nodes, zone, key);
    }
    Extensionality(d, b);
  }

  /** Every alias target is "<hostname>.<zone>." of an included node carrying the tag for that key. */
  lemma {:induction false} AliasTargetsFromTags(nodes: seq<Node>, key: string, zone: string, t: string)
    requires t in AliasTargets(nodes, key, zone)
    ensures exists i :: 0 <= i < |nodes| && Included(nodes[i]) && CnamePrefix + key in nodes[i].tags &&
                          t == Fqdn(nodes[i].computedName, zone)
    decreases |nodes|
  {
    var prefix := nodes[..|nodes| - 1];
    var n := nodes[|nodes| - 1];
    if t in AliasTargets(prefix, key, zone) && (!Included(n) || !(n.computedName == key && key !in KeysOf(prefix))) {
      AliasTargetsFromTags(prefix, key, zone, t);
      var i :| 0 <= i < |prefix| && Included(prefix[i]) && CnamePrefix + key in prefix[i].tags
        && t == Fqdn(prefix[i].computedName, zone);
      assert prefix[i] == nodes[i];
    } else {
      TagTargetsSound(n.tags, key, Fqdn(n.computedName, zone), t);
      assert nodes[|nodes| - 1] == n;
    }
  }

  lemma {:induction false} TagTargetsSound(tags: seq<string>, key: string, fqdn: string, t: string)
    requires t in TagTargets(tags, key, fqdn)
    ensures t == fqdn && CnamePrefix + key in tags
    decreases |tags|
  {
    if t in TagTargets(tags[1..], key, fqdn) {
      TagTargetsSound(tags[1..], key, fqdn, t);
      assert CnamePrefix + key in tags[1..];
    } else {
      assert tags[0] == CnamePrefix + key;
    }
  }
}
