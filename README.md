# coredns-tailscale: resolver and directory builder

This project models the two pieces of sequential logic inside the
coredns-tailscale CoreDNS plugin, and proves properties about them:

- **The query resolver of `serve.go`.**
  - `resolveA`, `resolveAAAA` and `resolveCNAME` look a query name up in
    the plugin's directory and append records to the reply's answer section.
    The directory maps a host label to a map from record kind (`"A"`,
    `"AAAA"`, `"CNAME"`) to a list of strings.
  - `ServeDNS` routes a query to them by type. It answers when something
    was found and otherwise hands the query to the next plugin.
- **The directory builder `processNetMap` of `tailscale.go`.** It turns
  the tailnet's node list into a fresh directory and publishes it in
  place of the old one.

Modules and files:

| file | module | contents |
|---|---|---|
| `wrappers.dfy` | `Wrappers` | `Option` |
| `dns.dfy` | `Dns` | the DNS pieces the plugin touches: record headers, A/AAAA/CNAME records, questions, requests, and the reply message class `Msg` whose `answer` field the resolvers append to |
| `directory.dfy` | `Directory` | the directory type; reading a missing host or kind as the empty list; the shape invariant (only the three kinds occur, and no list is stored empty) |
| `resolution.dfy` | `Resolution` | the resolvers as functions of the directory, and lemmas about them |
| `netmap.dfy` | `NetMap` | the node model, the builder as functions following its three loops, independent reference definitions of what the result holds, and the lemmas that connect the two |
| `plugin.dfy` | `Plugin` | class `Tailscale`, holding `zone` and `entries`, with the imperative methods `ResolveA`, `ResolveAAAA`, `ResolveCNAME`, `ServeDNS` and `ProcessNetMap`, each proved against those functions |
| `fixtures.dfy` | `Fixtures` | the directory of `serve_test.go` and the answers its tests expect; small network maps showing alias chains, alias cycles and self-naming alias tags |

**Termination.** `resolveA`/`resolveAAAA` fall back to `resolveCNAME`,
and `resolveCNAME` calls them again on every alias target.

- Alias chasing is therefore mutual recursion with no bound. A key's
  alias list is read only when the key lacks the asked address list, so a
  call returns exactly when the chase it makes, through keys that lack the
  asked list, never comes back to a key it has already passed. An acyclic
  alias graph is enough for that (`Ranked*Terminate*`), but a cycle through
  a key that has the asked list does no harm
  (`Fixtures.CycleThroughAddressHostAnswers`).
- Each spec function takes a `fuel` count of alias hops. It returns
  `None` when the chase would need more hops than that.
- The methods take a ghost `fuel` and require the spec function to be
  `Some` at that fuel. In other words, they require that the Go call
  returns.
- Three groups of lemmas support this:
  - `FuelMonotone*`: the answer does not depend on the fuel once it is `Some`.
  - `Ranked*Terminate*`: on an acyclic directory, enough fuel always exists.
  - `Fixtures.CycleNeverAnswers`: two hosts tagged as aliases of each other
    give a query that never returns.

**Go map aliasing in processNetMap.** When a node's hostname is already a
key, `entry` is the very map stored under it. So the address appends, and
any alias the node's own tags add to that hostname, go into one map. When
the hostname is new, `entry` is a fresh map. The final
`entries[hostname] = entry` then replaces whatever the node's own tags had
created under its hostname. `NetMap.Step` and `Plugin.Tailscale.ProcessNetMap`
model both cases on values, and `NetMap.AliasTargets` states the result.

**Behaviour of the code as written.**

- **Multi-hop chasing.** Alias chasing is not limited to one hop. A target
  with no address list of its own is chased through its own aliases
  (`Fixtures.ChainFollowedPastOneHop`). A chase that comes back to a key
  lacking the asked list never returns (`Fixtures.CycleNeverAnswers`).
- **Case sensitivity.** The lookup key is the query name's text before its
  first dot, exactly as written. There is no case folding and no check of
  the zone (`Resolution.LookupKey`; `Fixtures.TestMisses`, where `Test1`
  misses).
- **Fallthrough never read.** `ServeDNS` never reads the fallthrough
  setting. Every miss goes to `plugin.NextOrFailure`, which is a server
  failure when no next plugin exists. `TestServeDNSFallback` expects that
  failure. `TestServeDNSNoFallback` expects a name error for the same miss,
  which the code as written does not produce (`Fixtures.MissDelegated`).

## Model

| member | source | states |
|---|---|---|
| Resolution.LookupKey | serve.go:27 | the key is a prefix of the query name and contains no dot; it is either the whole name or stops just before the name's first dot (the same split is at serve.go:47 and serve.go:67) |
| Resolution.LookupKeyIgnoresZone | serve.go:27 | for a dot-free host label, the key of `host.<anything>` is that label, whatever the zone part says |
| Resolution.AddressRecords | serve.go:31-36 | one record per listed address, in list order; each is the address under the unmodified query name, with class INET, TTL 60 and the type of its family |
| Resolution.AnswerTarget | serve.go:72-85 | a target's block, when it returns, starts with the CNAME record from the query name to that target |
| Resolution.FuelMonotoneAddress | serve.go:25-43 | an address answer that returns at some fuel is the same answer at any larger fuel |
| Resolution.FuelMonotoneAlias | serve.go:65-89 | the same for an alias answer |
| Resolution.FuelMonotoneTargets | serve.go:71-87 | the same for the blocks of a target list |
| Resolution.FuelMonotoneTarget | serve.go:72-85 | the same for one target's block |
| Resolution.SoundAddress | serve.go:25-43 | every record of an address answer, at any depth, has class INET, TTL 60 and its own type code; it passes the family's filter, so an A query never yields an AAAA record and vice versa; and its value is listed, under its owner's key, in the list of its kind |
| Resolution.SoundAlias | serve.go:65-89 | the same for an alias answer under any filter: TypeA lets no AAAA record through at any depth, TypeAAAA no A record |
| Resolution.SoundTargets | serve.go:71-87 | the same for the blocks of alias targets that the owner's key lists |
| Resolution.SoundTarget | serve.go:72-85 | the same for one listed target's block |
| Resolution.AddressMissIsAlias | serve.go:37-41 | without a list of the queried family, an address query is the alias query restricted to that family (also serve.go:57-61) |
| Resolution.TargetsSplit | serve.go:71-87 | the answer for a concatenated target list is the two answers concatenated, and it fails to return if either part does; every target therefore contributes one contiguous block, in list order |
| Resolution.TargetsSingle | serve.go:71-87 | a one-target list answers with that target's block |
| Resolution.TargetsStep | serve.go:71-87 | iteration i appends target i's block to the blocks of targets 0..i-1 |
| Resolution.TargetUnfold | serve.go:72-85 | a target's block is its CNAME record, then the target's A answer if the filter is all or A, then its AAAA answer if the filter is all or AAAA, each one alias hop further |
| Resolution.TargetsLength | serve.go:71-87 | the answer has at least one record per target |
| Resolution.AliasEmptyIff | serve.go:65-89 | an alias answer is empty exactly when the key lists no alias target |
| Resolution.AddressEmptyIff | serve.go:25-43 | an address answer is empty exactly when the key's list of the family is present but empty, or is absent and the key lists no alias target |
| Resolution.QueryEmptyIff | serve.go:99-115 | the answer ServeDNS builds is empty exactly when the directory has nothing for the question (`Miss`), and always for types other than A, AAAA and CNAME |
| Resolution.RankedAddressTerminates | serve.go:25-43 | if every alias edge leads to a key of strictly smaller rank (an acyclic alias graph), an address query returns once the fuel exceeds the key's rank |
| Resolution.RankedAliasTerminates | serve.go:65-89 | the same for an alias query |
| Resolution.RankedTargetsTerminate | serve.go:71-87 | the same for a target list whose targets all have smaller rank |
| Plugin.Tailscale.ResolveA | serve.go:25-43 | appends exactly the address answer to the message: one A record per element of the key's A list, in order, or else the alias answer under TypeA; what was already in the message stays in front |
| Plugin.Tailscale.ResolveAAAA | serve.go:45-63 | the same for AAAA and TypeAAAA |
| Plugin.Tailscale.ResolveCNAME | serve.go:65-89 | appends exactly the alias answer: nothing without an alias list, otherwise each target's block in list order; what was already in the message stays in front |
| Plugin.Tailscale.ResolveTarget | serve.go:72-85 | one iteration of the target loop appends exactly that target's block |
| Plugin.Tailscale.ServeDNS | serve.go:91-126 | routes A, AAAA and CNAME to their resolvers. It writes an authoritative success reply, with the request's id and question and the resolved answer, exactly when the directory has something for the question. On a miss, and for every other query type, it hands on the unmodified request |
| Plugin.Tailscale.ProcessNetMap | tailscale.go:89-146 | a missing network map leaves the directory as it was. Otherwise the new directory is the one built from the self node followed by the peers, whatever the old one held. So nothing of the previous snapshot survives, and the same map always gives the same directory |
| Plugin.FqdnKey | tailscale.go:134 | the alias target recorded for a dot-free hostname looks up that hostname again (see serve.go:27) |
| Plugin.AliasTargetsAreKeys | tailscale.go:128-139 | with dot-free hostnames, every alias target in a built directory leads the resolver to a key of the same directory |
| NetMap.Nodes | tailscale.go:95-96 | the nodes in processing order: the self node first, then the peers |
| NetMap.IncludedNodes | tailscale.go:100-108 | a node occurs in the result exactly when it occurs in the input and is neither WireGuard-only nor shared |
| NetMap.IncludedNodesSingle | tailscale.go:100-108 | a single node is kept exactly when it is included |
| NetMap.IncludedNodesAppend | tailscale.go:99-108 | the filter distributes over concatenation; with IncludedNodesSingle this keeps the included nodes in input order and with their multiplicity |
| NetMap.CnameTagIff | tailscale.go:130 | a tag names key x exactly when it is `tag:cname-` followed by x |
| NetMap.AddAddressesEffect | tailscale.go:117-125 | the address loop appends the node's IPv4 texts to "A" and its IPv6 texts to "AAAA", in address order; other addresses and other kinds are untouched; the entry keeps its shape |
| NetMap.AddTagEffect | tailscale.go:130-135 | one alias tag adds its key if that key is missing, and appends `<hostname>.<zone>.` to that key's CNAME list only; other tags change nothing |
| NetMap.ApplyTagsKeys | tailscale.go:128-137 | the tag loop adds exactly the keys its alias tags name |
| NetMap.ApplyTagsKeepsAddresses | tailscale.go:128-137 | the tag loop changes no list but CNAME lists |
| NetMap.ApplyTagsAliases | tailscale.go:128-137 | each key's CNAME list grows by the node's target once per tag naming the key, in tag order |
| NetMap.ApplyTagsShaped | tailscale.go:128-137 | the tag loop keeps the directory's shape |
| NetMap.ApplyTagsEffect | tailscale.go:128-137 | the four facts above together |
| NetMap.StepKeys | tailscale.go:110-139 | after one included node the keys are the old ones plus its hostname plus the keys its alias tags name |
| NetMap.StepAddresses | tailscale.go:110-125 | one included node appends its addresses to its own hostname's lists and to no other key's, whether or not the hostname was already a key |
| NetMap.StepAliases | tailscale.go:111-139 | one included node appends its target to the CNAME list of every key its tags name. The exception: a hostname that was not yet a key ends with an empty list, its own self-naming tags included |
| NetMap.StepShaped | tailscale.go:110-139 | one node keeps the directory's shape |
| NetMap.StepEffect | tailscale.go:99-140 | everything one iteration of the node loop does |
| NetMap.BuildKeys | tailscale.go:98-140 | the keys of the built directory are the included hostnames and the keys their alias tags name |
| NetMap.BuildShaped | tailscale.go:98-140 | only A, AAAA and CNAME lists occur, none of them empty |
| NetMap.BuildAddresses | tailscale.go:110-125 | a key's A list is the IPv4 texts of every included node with that hostname, in node and address order (two nodes with one hostname share one entry); the AAAA list holds the IPv6 texts |
| NetMap.BuildAliases | tailscale.go:128-139 | a key's CNAME list is `AliasTargets`: `<hostname>.<zone>.` once per tag naming the key, in node and tag order, except that it is wiped when a node with that hostname creates its entry |
| NetMap.BuildIgnoresExcluded | tailscale.go:100-108 | WireGuard-only and shared nodes leave no trace: the result is the one built from the included nodes alone |
| NetMap.KeysOfHostname | tailscale.go:139 | every included node's hostname is a key |
| NetMap.BuildDetermined | tailscale.go:98-140 | the reference definitions pin the result down: a well-shaped directory with those keys and those three lists per key is the built one |
| NetMap.AliasTargetsFromTags | tailscale.go:128-136 | every alias target of a key is `<hostname>.<zone>.` of an included node carrying the tag for that key |
| NetMap.TagTargetsSound | tailscale.go:130-134 | a target one tag list yields for a key is the node's own name, and the list holds that key's tag |
| Fixtures.TestDirectoryShape | serve_test.go:16-38 | the fixture directory has the three address hosts and test2 aliasing test2-1 and test2-2 |
| Fixtures.TestResolveAddresses | serve_test.go:124-160 | for test1 (and for test2-1 and test2-2), an A query gives exactly one record, 127.0.0.1 under the query name; an AAAA query gives exactly ::1 |
| Fixtures.TestResolveCNAME | serve_test.go:162-196 | an alias query for test2 gives six records: each CNAME followed by its target's A and AAAA record |
| Fixtures.TestResolveAddressThroughAlias | serve_test.go:198-258 | an A query (or an AAAA query) for test2 gives four records: the two CNAME records, each followed by the target's address of the asked family only |
| Fixtures.TestMisses | serve_test.go:97-108 | test3 misses, Test1 misses because lookups are case-sensitive, and test1 is found |
| Fixtures.MatchAnswered | serve_test.go:110-120 | ServeDNS answers test1 with success and its single A record 127.0.0.1 |
| Fixtures.MissDelegated | serve_test.go:97-108 | ServeDNS hands the test3 miss on unchanged, whatever the fallthrough setting (see serve.go:125) |
| Fixtures.ChainLastHop | serve.go:76-85 | on a -> b -> c with an address only on c, an A query for b gives its CNAME and then c's address |
| Fixtures.ChainFollowedPastOneHop | serve.go:76-85 | an A query for a gives both CNAME records and c's address: chasing goes past one hop |
| Fixtures.CycleBuilt | tailscale.go:128-139 | two IPv6-only hosts tagged as aliases of each other get no A list, and each one's alias list names the other |
| Fixtures.CycleNeverAnswersOn | serve.go:37-41 | on such a directory, an A query for either host runs out of every amount of fuel |
| Fixtures.CycleNeverAnswers | serve.go:65-89 | an A query against the directory built from those two hosts never returns |
| Fixtures.CycleThroughAddressHostAnswers | serve.go:28-36 | a host whose alias list names itself still answers an A query with its own address, since its alias list is never read |
| Fixtures.SelfAliasLost | tailscale.go:111-139 | a host tagged with an alias for its own, not yet known, hostname ends with an empty alias list |
| Fixtures.SelfAliasKeptWhenKnown | tailscale.go:111-139 | the same tag survives when an earlier node has created the key, and the list then holds both targets in node order |

## Left out

- `start` and `watchIPNBus` (tailscale.go:40-87). They connect to
  tailscaled or a tsnet server, stream IPN bus events in a goroutine and
  retry after a one-minute sleep. That is network I/O and background
  concurrency. Only the `processNetMap` call they make is modelled.
- The `sync.RWMutex` around the publish (tailscale.go:142-144). The new
  directory is published as a single field assignment. `ServeDNS` reads
  `t.entries` without taking the lock.
- `w.WriteMsg` and `plugin.NextOrFailure` (serve.go:117, 125). They are
  replaced by the `Outcome` datatype: a written reply with its code, or the
  request handed on. What the next plugin does, and the server failure
  returned when none exists, is outside the model.
- `net.ParseIP` (serve.go:34, 54). Addresses stay the text the directory
  holds. An unparsable text, which Go would turn into a nil IP, is not
  distinguished.
- Logging and the metrics comment (serve.go:14, the `log.Debug*` calls).
- setup.go: parsing of configuration tokens and plugin registration.
  Setting `zone` and the fallthrough zones is not part of this model.
- The fallthrough/name-error policy that serve_test.go:40-55 and
  serve_test.go:97-108 assume. The code never consults `t.fall`, so the
  model has no such policy. `Fixtures.MissDelegated` records what the code
  does instead.
- tailscale_test.go. It needs a live tailnet and refers to a `Next` field
  and a `pollPeers` method that this code does not have.
- The handler field's name. serve.go:125 passes `t.Next`, while the struct
  field is `next` (tailscale.go:20), so serve.go as shown does not compile
  against tailscale.go as shown. The model reads serve.go:125 as handing
  the request to the `next` handler.
- Plugin.Tailscale.ServeDNS: requires a request with at least one
  question. On a request with none, Go's `r.Question[0]` at serve.go:92
  panics. The model assumes the server never passes on such a request.
- Plugin.Tailscale.ResolveA: the `fuel` argument is ghost. The method
  requires that the Go call returns, since a cycle in the alias graph makes
  the Go recursion run until the stack overflows. The model does not
  describe that overflow. The same holds for ResolveAAAA, ResolveCNAME,
  ResolveTarget and ServeDNS.
- NetMap.Node keeps only the parts of a node view that processNetMap
  reads: computed name, WireGuard-only flag, whether the sharer is zero,
  the address families and texts, and the tags.
