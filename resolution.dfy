/**
 * The query resolver of serve.go as functions of the directory.
 *
 * resolveA, resolveAAAA and resolveCNAME call each other: an address
 * miss falls back to the alias list, and every alias target is resolved
 * again as an address query, which may fall back to its own aliases.
 * Nothing bounds that chase, so the Go code returns only when the alias
 * graph it walks is acyclic.  Each function therefore takes a `fuel`
 * count of alias hops and returns None when the chase needs more; once
 * a result is Some it no longer depends on the fuel (FuelMonotone*).
 */
module Resolution {
  import opened Wrappers
  import opened Directory
  import Dns

  /** The filter resolveCNAME receives (the iota constants of serve.go). */
  datatype LookupType = TypeAll | TypeA | TypeAAAA

  /** The two address kinds, standing for resolveA and resolveAAAA. */
  datatype Family = IPv4 | IPv6

  /** The directory list an address query reads. */
  function ListKey(f: Family): string
  {
    if f == IPv4 then "A" else "AAAA"
  }

  /** The filter an address miss hands to the alias fallback. */
  function OnlyType(f: Family): LookupType
  {
    if f == IPv4 then TypeA else TypeAAAA
  }

  /** Whether an alias chase under filter `lt` resolves targets for family `f`. */
  predicate Wants(lt: LookupType, f: Family)
  {
    lt == TypeAll || lt == OnlyType(f)
  }

  const RecordTtl: nat := 60

  function Hdr(owner: string, rrtype: nat): Dns.Header
  {
    Dns.Header(owner, rrtype, Dns.ClassINET, RecordTtl)
  }

  function AddressRecord(f: Family, owner: string, addr: string): Dns.RR
  {
    if f == IPv4 then Dns.A(Hdr(owner, Dns.TypeA), addr) else Dns.AAAA(Hdr(owner, Dns.TypeAAAA), addr)
  }

  function AliasRecord(owner: string, target: string): Dns.RR
  {
    Dns.CNAME(Hdr(owner, Dns.TypeCNAME), target)
  }

  /**
   * The directory key of a query name: everything before its first dot
   * (the first element of strings.Split(name, ".")).  The zone part is
   * dropped unchecked and no case folding happens.
   */
  function LookupKey(name: string): (key: string)
    ensures key <= name
    ensures '.' !in key
    ensures key == name || name[|key|] == '.'
  {
    if name == [] || name[0] == '.' then [] else [name[0]] + LookupKey(name[1..])
  }

  /** Only the first label matters: whatever follows the first dot is ignored. */
  lemma {:induction false} LookupKeyIgnoresZone(host: string, rest: string)
    requires '.' !in host
    ensures LookupKey(host + "." + rest) == host
  {
    var name := host + "." + rest;
    var key := LookupKey(name);
    assert name[..|host|] == host && name[|host|] == '.';
    assert forall i :: 0 <= i < |host| ==> name[i] == host[i] && name[i] != '.';
    assert key == name[..|key|];
  }

  /** One record per listed address, in list order, owned by the query name. */
  function AddressRecords(f: Family, owner: string, addrs: seq<string>): (rs: seq<Dns.RR>)
    ensures |rs| == |addrs|
    ensures forall i :: 0 <= i < |addrs| ==> rs[i] == AddressRecord(f, owner, addrs[i])
  {
    if addrs == [] then []
    else AddressRecords(f, owner, addrs[..|addrs| - 1]) + [AddressRecord(f, owner, addrs[|addrs| - 1])]
  }

  /** resolveA (f == IPv4) and resolveAAAA (f == IPv6). */
  function AnswerAddress(d: Directory, name: string, f: Family, fuel: nat): Option<seq<Dns.RR>>
    decreases fuel, 2, 0
  {
    var key := LookupKey(name);
    if key in d && ListKey(f) in d[key] then Some(AddressRecords(f, name, d[key][ListKey(f)]))
    else AnswerAlias(d, name, OnlyType(f), fuel)
  }

  /** resolveCNAME: nothing when the key has no alias list, else one block per target. */
  function AnswerAlias(d: Directory, name: string, lt: LookupType, fuel: nat): Option<seq<Dns.RR>>
    decreases fuel, 1, 0
  {
    var key := LookupKey(name);
    if key in d && "CNAME" in d[key] then AnswerTargets(d, name, lt, d[key]["CNAME"], fuel)
    else Some([])
  }

  /** The blocks of the first |targets| iterations of resolveCNAME's loop. */
  function AnswerTargets(d: Directory, owner: string, lt: LookupType, targets: seq<string>, fuel: nat): Option<seq<Dns.RR>>
    decreases fuel, 0, |targets|
  {
    if targets == [] then Some([])
    else
      match AnswerTargets(d, owner, lt, targets[..|targets| - 1], fuel)
      case None => None
      case Some(before) =>
        match AnswerTarget(d, owner, lt, targets[|targets| - 1], fuel)
        case None => None
        case Some(block) => Some(before + block)
  }

  /**
   * One iteration of resolveCNAME's loop: the alias record, then the
   * target's A answer, then its AAAA answer, as the filter asks.  Each
   * target costs one unit of fuel.
   */
  function AnswerTarget(d: Directory, owner: string, lt: LookupType, target: string, fuel: nat): (r: Option<seq<Dns.RR>>)
    decreases fuel, 0, 0
    ensures r.Some? ==> |r.value| > 0 && r.value[0] == AliasRecord(owner, target)
  {
    if fuel == 0 then None
    else
      var v4 := if Wants(lt, IPv4) then AnswerAddress(d, target, IPv4, fuel - 1) else Some([]);
      var v6 := if Wants(lt, IPv6) then AnswerAddress(d, target, IPv6, fuel - 1) else Some([]);
      if v4.None? || v6.None? then None else Some([AliasRecord(owner, target)] + v4.value + v6.value)
  }

  /** The answer ServeDNS builds for a question; other query types get nothing. */
  function QueryAnswer(d: Directory, q: Dns.Question, fuel: nat): Option<seq<Dns.RR>>
  {
    if q.qtype == Dns.TypeA then AnswerAddress(d, q.name, IPv4, fuel)
    else if q.qtype == Dns.TypeAAAA then AnswerAddress(d, q.name, IPv6, fuel)
    else if q.qtype == Dns.TypeCNAME then AnswerAlias(d, q.name, TypeAll, fuel)
    else Some([])
  }

  // ---------------------------------------------------------------------
  // Fuel: a terminating answer does not depend on how much fuel is given.

  lemma {:induction false} FuelMonotoneAddress(d: Directory, name: string, f: Family, fuel: nat, more: nat)
    requires fuel <= more && AnswerAddress(d, name, f, fuel).Some?
    ensures AnswerAddress(d, name, f, more) == AnswerAddress(d, name, f, fuel)
    decreases fuel, 2, 0
  {
    var key := LookupKey(name);
    if !(key in d && ListKey(f) in d[key]) {
      FuelMonotoneAlias(d, name, OnlyType(f), fuel, more);
    }
  }

  lemma {:induction false} FuelMonotoneAlias(d: Directory, name: string, lt: LookupType, fuel: nat, more: nat)
    requires fuel <= more && AnswerAlias(d, name, lt, fuel).Some?
    ensures AnswerAlias(d, name, lt, more) == AnswerAlias(d, name, lt, fuel)
    decreases fuel, 1, 0
  {
    var key := LookupKey(name);
    if key in d && "CNAME" in d[key] {
      FuelMonotoneTargets(d, name, lt, d[key]["CNAME"], fuel, more);
    }
  }

  lemma {:induction false} FuelMonotoneTargets(d: Directory, owner: string, lt: LookupType, targets: seq<string>, fuel: nat, more: nat)
    requires fuel <= more && AnswerTargets(d, owner, lt, targets, fuel).Some?
    ensures AnswerTargets(d, owner, lt, targets, more) == AnswerTargets(d, owner, lt, targets, fuel)
    decreases fuel, 0, |targets|
  {
    if targets != [] {
      FuelMonotoneTargets(d, owner, lt, targets[..|targets| - 1], fuel, more);
      FuelMonotoneTarget(d, owner, lt, targets[|targets| - 1], fuel, more);
    }
  }

  lemma {:induction false} FuelMonotoneTarget(d: Directory, owner: string, lt: LookupType, target: string, fuel: nat, more: nat)
    requires fuel <= more && AnswerTarget(d, owner, lt, target, fuel).Some?
    ensures AnswerTarget(d, owner, lt, target, more) == AnswerTarget(d, owner, lt, target, fuel)
    decreases fuel, 0, 0
  {
    if Wants(lt, IPv4) {
      FuelMonotoneAddress(d, target, IPv4, fuel - 1, more - 1);
    }
    if Wants(lt, IPv6) {
      FuelMonotoneAddress(d, target, IPv6, fuel - 1, more - 1);
    }
  }

  // ---------------------------------------------------------------------
  // Every emitted record is a stamped fact of the directory that the
  // filter admits.

  /** Class INET, TTL 60 and the type code of the record's own kind. */
  predicate Stamped(rr: Dns.RR)
  {
    && rr.hdr.rrclass == Dns.ClassINET
    && rr.hdr.ttl == RecordTtl
    && rr.hdr.rrtype == (match rr case A(_, _) => Dns.TypeA case AAAA(_, _) => Dns.TypeAAAA case CNAME(_, _) => Dns.TypeCNAME)
  }

  /** The filter admits the record: TypeA never lets an AAAA record through, TypeAAAA never an A record. */
  predicate Admits(lt: LookupType, rr: Dns.RR)
  {
    && (rr.A? ==> Wants(lt, IPv4))
    && (rr.AAAA? ==> Wants(lt, IPv6))
  }

  /** The record's value is listed under its owner's key, in the list of its kind. */
  predicate Grounded(d: Directory, rr: Dns.RR)
  {
    match rr
    case A(hdr, a) => a in GetList(d, LookupKey(hdr.name), "A")
    case AAAA(hdr, aaaa) => aaaa in GetList(d, LookupKey(hdr.name), "AAAA")
    case CNAME(hdr, target) => target in GetList(d, LookupKey(hdr.name), "CNAME")
  }

  predicate Sound(d: Directory, lt: LookupType, rr: Dns.RR)
  {
    Stamped(rr) && Admits(lt, rr) && Grounded(d, rr)
  }

  lemma {:induction false} SoundAddress(d: Directory, name: string, f: Family, fuel: nat)
    requires AnswerAddress(d, name, f, fuel).Some?
    ensures forall rr :: rr in AnswerAddress(d, name, f, fuel).value ==> Sound(d, OnlyType(f), rr)
    decreases fuel, 2, 0
  {
    var key := LookupKey(name);
    if key in d && ListKey(f) in d[key] {
      var rs := AddressRecords(f, name, d[key][ListKey(f)]);
      forall rr | rr in rs ensures Sound(d, OnlyType(f), rr) {
        var i :| 0 <= i < |rs| && rs[i] == rr;
        assert rr == AddressRecord(f, name, d[key][ListKey(f)][i]);
      }
    } else {
      SoundAlias(d, name, OnlyType(f), fuel);
    }
  }

  lemma {:induction false} SoundAlias(d: Directory, name: string, lt: LookupType, fuel: nat)
    requires AnswerAlias(d, name, lt, fuel).Some?
    ensures forall rr :: rr in AnswerAlias(d, name, lt, fuel).value ==> Sound(d, lt, rr)
    decreases fuel, 1, 0
  {
    var key := LookupKey(name);
    if key in d && "CNAME" in d[key] {
      SoundTargets(d, name, lt, d[key]["CNAME"], fuel);
    }
  }

  lemma {:induction false} SoundTargets(d: Directory, owner: string, lt: LookupType, targets: seq<string>, fuel: nat)
    requires forall t :: t in targets ==> t in GetList(d, LookupKey(owner), "CNAME")
    requires AnswerTargets(d, owner, lt, targets, fuel).Some?
    ensures forall rr :: rr in AnswerTargets(d, owner, lt, targets, fuel).value ==> Sound(d, lt, rr)
    decreases fuel, 0, |targets|
  {
    if targets != [] {
      var prefix := targets[..|targets| - 1];
      assert forall t :: t in prefix ==> t in targets;
      SoundTargets(d, owner, lt, prefix, fuel);
      assert targets[|targets| - 1] in targets;
      SoundTarget(d, owner, lt, targets[|targets| - 1], fuel);
    }
  }

  lemma {:induction false} SoundTarget(d: Directory, owner: string, lt: LookupType, target: string, fuel: nat)
    requires target in GetList(d, LookupKey(owner), "CNAME")
    requires AnswerTarget(d, owner, lt, target, fuel).Some?
    ensures forall rr :: rr in AnswerTarget(d, owner, lt, target, fuel).value ==> Sound(d, lt, rr)
    decreases fuel, 0, 0
  {
    var v4 := if Wants(lt, IPv4) then AnswerAddress(d, target, IPv4, fuel - 1) else Some([]);
    var v6 := if Wants(lt, IPv6) then AnswerAddress(d, target, IPv6, fuel - 1) else Some([]);
    if Wants(lt, IPv4) {
      SoundAddress(d, target, IPv4, fuel - 1);
    }
    if Wants(lt, IPv6) {
      SoundAddress(d, target, IPv6, fuel - 1);
    }
    assert AnswerTarget(d, owner, lt, target, fuel).value == [AliasRecord(owner, target)] + v4.value + v6.value;
  }

  // ---------------------------------------------------------------------
  // Layout and emptiness.

  /** resolveA without an A list (resolveAAAA without an AAAA list) is resolveCNAME under that one type. */
  lemma AddressMissIsAlias(d: Directory, name: string, f: Family, fuel: nat)
    requires LookupKey(name) !in d || ListKey(f) !in d[LookupKey(name)]
    ensures AnswerAddress(d, name, f, fuel) == AnswerAlias(d, name, if f == IPv4 then TypeA else TypeAAAA, fuel)
  {
  }

  /**
   * The answer for a target list is the concatenation of the answers for
   * its parts, so every target contributes one contiguous block, in list
   * order; the block of a single target is AnswerTarget's.
   */
  lemma {:induction false} TargetsSplit(d: Directory, owner: string, lt: LookupType, ts1: seq<string>, ts2: seq<string>, fuel: nat)
    ensures AnswerTargets(d, owner, lt, ts1 + ts2, fuel) ==
      (match (AnswerTargets(d, owner, lt, ts1, fuel), AnswerTargets(d, owner, lt, ts2, fuel))
       case (Some(r1), Some(r2)) => Some(r1 + r2)
       case _ => None)
    decreases |ts2|
  {
    if ts2 == [] {
      assert ts1 + ts2 == ts1;
      var r1 := AnswerTargets(d, owner, lt, ts1, fuel);
      if r1.Some? {
        assert r1.value + [] == r1.value;
      }
    } else {
      var init := ts2[..|ts2| - 1];
      var last := ts2[|ts2| - 1];
      assert (ts1 + ts2)[..|ts1 + ts2| - 1] == ts1 + init;
      assert (ts1 + ts2)[|ts1 + ts2| - 1] == last;
      TargetsSplit(d, owner, lt, ts1, init, fuel);
      var r1 := AnswerTargets(d, owner, lt, ts1, fuel);
      var ri := AnswerTargets(d, owner, lt, init, fuel);
      var rl := AnswerTarget(d, owner, lt, last, fuel);
      if r1.Some? && ri.Some? && rl.Some? {
        assert r1.value + ri.value + rl.value == r1.value + (ri.value + rl.value);
      }
    }
  }

  lemma {:induction false} TargetsSingle(d: Directory, owner: string, lt: LookupType, target: string, fuel: nat)
    ensures AnswerTargets(d, owner, lt, [target], fuel) == AnswerTarget(d, owner, lt, target, fuel)
  {
    assert [target][..0] == [];
    var r := AnswerTarget(d, owner, lt, target, fuel);
    if r.Some? {
      assert [] + r.value == r.value;
    }
  }

  /** One more iteration of resolveCNAME's loop appends the next target's block. */
  lemma TargetsStep(d: Directory, owner: string, lt: LookupType, targets: seq<string>, i: nat, fuel: nat)
    requires i < |targets| && AnswerTargets(d, owner, lt, targets, fuel).Some?
    ensures AnswerTargets(d, owner, lt, targets[..i], fuel).Some?
    ensures AnswerTarget(d, owner, lt, targets[i], fuel).Some?
    ensures AnswerTargets(d, owner, lt, targets[..i + 1], fuel) ==
              Some(AnswerTargets(d, owner, lt, targets[..i], fuel).value + AnswerTarget(d, owner, lt, targets[i], fuel).value)
  {
    var done := targets[..i + 1];
    assert done + targets[i + 1..] == targets;
    TargetsSplit(d, owner, lt, done, targets[i + 1..], fuel);
    assert done[..i] == targets[..i] && done[i] == targets[i];
  }

  /** The block of one target: its alias record, then the wanted address answers one hop further. */
  lemma TargetUnfold(d: Directory, owner: string, lt: LookupType, target: string, fuel: nat)
    requires AnswerTarget(d, owner, lt, target, fuel).Some?
    ensures fuel > 0
    ensures Wants(lt, IPv4) ==> AnswerAddress(d, target, IPv4, fuel - 1).Some?
    ensures Wants(lt, IPv6) ==> AnswerAddress(d, target, IPv6, fuel - 1).Some?
    ensures AnswerTarget(d, owner, lt, target, fuel).value ==
              [AliasRecord(owner, target)]
              + (if Wants(lt, IPv4) then AnswerAddress(d, target, IPv4, fuel - 1).value else [])
              + (if Wants(lt, IPv6) then AnswerAddress(d, target, IPv6, fuel - 1).value else [])
  {
  }

  /** Every target yields at least its alias record. */
  lemma {:induction false} TargetsLength(d: Directory, owner: string, lt: LookupType, targets: seq<string>, fuel: nat)
    requires AnswerTargets(d, owner, lt, targets, fuel).Some?
    ensures |AnswerTargets(d, owner, lt, targets, fuel).value| >= |targets|
    decreases |targets|
  {
    if targets != [] {
      TargetsLength(d, owner, lt, targets[..|targets| - 1], fuel);
    }
  }

  /** An alias answer is empty exactly when the key has no alias target at all. */
  lemma {:induction false} AliasEmptyIff(d: Directory, name: string, lt: LookupType, fuel: nat)
    requires AnswerAlias(d, name, lt, fuel).Some?
    ensures AnswerAlias(d, name, lt, fuel).value == [] <==> GetList(d, LookupKey(name), "CNAME") == []
  {
    var key := LookupKey(name);
    if key in d && "CNAME" in d[key] {
      TargetsLength(d, name, lt, d[key]["CNAME"], fuel);
    }
  }

  /**
   * An address answer is empty exactly when the key lists no address of
   * the family (the list is present but empty), or lists none at all and
   * has no alias target either.
   */
  lemma {:induction false} AddressEmptyIff(d: Directory, name: string, f: Family, fuel: nat)
    requires AnswerAddress(d, name, f, fuel).Some?
    ensures AnswerAddress(d, name, f, fuel).value == [] <==>
      var key := LookupKey(name);
      if key in d && ListKey(f) in d[key] then d[key][ListKey(f)] == []
      else GetList(d, key, "CNAME") == []
  {
    var key := LookupKey(name);
    if !(key in d && ListKey(f) in d[key]) {
      AliasEmptyIff(d, name, OnlyType(f), fuel);
    }
  }

  /** The directory has nothing for the question: ServeDNS then delegates. */
  predicate Miss(d: Directory, q: Dns.Question)
  {
    var key := LookupKey(q.name);
    if q.qtype == Dns.TypeA then
      (if key in d && "A" in d[key] then d[key]["A"] == [] else GetList(d, key, "CNAME") == [])
    else if q.qtype == Dns.TypeAAAA then
      (if key in d && "AAAA" in d[key] then d[key]["AAAA"] == [] else GetList(d, key, "CNAME") == [])
    else if q.qtype == Dns.TypeCNAME then
      GetList(d, key, "CNAME") == []
    else true
  }

  lemma {:induction false} QueryEmptyIff(d: Directory, q: Dns.Question, fuel: nat)
    requires QueryAnswer(d, q, fuel).Some?
    ensures QueryAnswer(d, q, fuel).value == [] <==> Miss(d, q)
  {
    if q.qtype == Dns.TypeA {
      AddressEmptyIff(d, q.name, IPv4, fuel);
    } else if q.qtype == Dns.TypeAAAA {
      AddressEmptyIff(d, q.name, IPv6, fuel);
    } else if q.qtype == Dns.TypeCNAME {
      AliasEmptyIff(d, q.name, TypeAll, fuel);
    }
  }

  // ---------------------------------------------------------------------
  // Termination.

  function Rank(rank: map<string, nat>, key: string): nat
  {
    if key in rank then rank[key] else 0
  }

  /** Every alias edge leads to a key of strictly smaller rank: the alias graph is acyclic. */
  ghost predicate Ranked(d: Directory, rank: map<string, nat>)
  {
    forall key, i :: key in d && "CNAME" in d[key] && 0 <= i < |d[key]["CNAME"]| ==>
      Rank(rank, LookupKey(d[key]["CNAME"][i])) < Rank(rank, key)
  }

  /** On an acyclic directory every query returns once the fuel exceeds the key's rank. */
  lemma {:induction false} RankedAddressTerminates(d: Directory, rank: map<string, nat>, name: string, f: Family, fuel: nat)
    requires Ranked(d, rank) && fuel > Rank(rank, LookupKey(name))
    ensures AnswerAddress(d, name, f, fuel).Some?
    decreases fuel, 2, 0
  {
    var key := LookupKey(name);
    if !(key in d && ListKey(f) in d[key]) {
      RankedAliasTerminates(d, rank, name, OnlyType(f), fuel);
    }
  }

  lemma {:induction false} RankedAliasTerminates(d: Directory, rank: map<string, nat>, name: string, lt: LookupType, fuel: nat)
    requires Ranked(d, rank) && fuel > Rank(rank, LookupKey(name))
    ensures AnswerAlias(d, name, lt, fuel).Some?
    decreases fuel, 1, 0
  {
    var key := LookupKey(name);
    if key in d && "CNAME" in d[key] {
      RankedTargetsTerminate(d, rank, name, lt, d[key]["CNAME"], fuel);
    }
  }

  lemma {:induction false} RankedTargetsTerminate(d: Directory, rank: map<string, nat>, owner: string, lt: LookupType, targets: seq<string>, fuel: nat)
    requires Ranked(d, rank)
    requires forall i :: 0 <= i < |targets| ==> Rank(rank, LookupKey(targets[i])) < fuel - 1
    ensures AnswerTargets(d, owner, lt, targets, fuel).Some?
    decreases fuel, 0, |targets|
  {
    if targets != [] {
      var last := targets[|targets| - 1];
      RankedTargetsTerminate(d, rank, owner, lt, targets[..|targets| - 1], fuel);
      if Wants(lt, IPv4) {
        RankedAddressTerminates(d, rank, last, IPv4, fuel - 1);
      }
      if Wants(lt, IPv6) {
        RankedAddressTerminates(d, rank, last, IPv6, fuel - 1);
      }
    }
  }
}
