# Verification of the frp control plane

A Dafny model of the two services of this repository and proofs of what they keep. The *client* stores
port and room rules, renders them into frpc configurations, writes the files and drives the frpc
processes. The *control server* keeps groups, devices, nodes, exposures, routes and rooms, and answers the
frps plugin. `dafny verify dfyconfig.toml` checks everything.

Code that works step by step is imperative here as well: the process manager, the control service, the
client service, the text builder and the plugin request are classes; the probing, hashing, PBKDF2,
sanitizer, grouping and cascade loops are methods with loops over arrays, sequences or maps. Each is proved
equal to a function of its inputs and its old state, and the theorems are about those functions.

| part | modules |
|---|---|
| texts, numbers, sorting, list loops | Wrappers, Text, Decimal, Order, Lists, Validate |
| admin ports | Bits, AdminPorts |
| passwords | Pbkdf2, Base64Url, Password |
| printers and normalisers | PortRanges, WebDomain, Quoting, FrpConfig, FrpConfigLines, FrpConfigTables, FrpConfigDecode, FrpConfigToml |
| processes | ProcessManager (undisturbed calls), ProcessSteps (calls that overlap) |
| rule store | Rules, RuleChecks, RuleStore, RuleOverlaps |
| direct mode | DirectRender, DirectBuild, DirectPartition, DirectApart, Served, Rendering |
| applying | Transaction, Agreement, DirectService, EndToEnd |
| the JSON store | Storage, ControlStore |
| control server | ControlModel, ControlInvariant, ControlSteps, ControlAuth, ControlOwners, ControlService, ControlPlugin |

## How the pieces meet

* A state of the client is a store, a map of files and a process table; `Transaction.ApplyData` moves all
  three. `Agreement` carries "what the store renders to is what the files hold and the table records"
  through every sequential run, including the node requests that render nothing. It rests on
  `ProcessManager.ApplyConverges`, `Rendering.RenderedMergeable` (configurations with one path or key agree)
  and `Rendering.RenderReadsEnabledNodes` (rendering depends on no other node).
* `RuleChecks` says field by field what requests and checks accept and store, and `Served` what the configuration
  of a node or room must say of its rules. `EndToEnd` joins both to the renderer: what a successful apply leaves in
  the files can be decoded, with the escapes of `%q` or as TOML, and says just that.
* `ControlAuth` and `ControlOwners` say who is let in by the control server and who can change what, through every
  run; `ControlPlugin` draws the consequences for the proxies that frps is asked to open.
* Concurrency is a state machine over the sections that hold a lock. `ProcessSteps` splits the process
  manager's calls where the source unlocks, `RuleStore` splits requests between snapshot, commit and
  rollback, `ControlSteps` splits operations between authentication and action. Whatever the outside
  decides (a start or reload succeeds, a configuration verifies, a process exits) is part of the event.
* A Go map is traversed in an arbitrary order. Methods pick the next key with `:|`, and their contracts
  show that the result does not depend on the choice.

## What does not hold

Each of these has a concrete failing run or input, and an exact condition for all inputs.

* `assignAdminPorts` can loop for ever. Probing that starts above the base wraps to the port after it and never
  meets the base; probing that starts below the base, from a candidate that folded, always ends there. So the
  loop never returns exactly when, with room for all ids before it, an id is one too many above the base
  (`AdminPorts.NeverReturnsIff`); and it succeeds exactly when the ids above fit and those below can park
  (`AdminPorts.AssignSucceedsIff`, and concretely `AdminPorts.ProbingHangs`). A call that never returns is the error
  `Diverges` in the model.
* A node whose id equals the process id of an active room (`room-` and the rule's id) loses its rules:
  they are rendered nowhere (`DirectPartition.RenderPartitions`, `DirectPartition.ClashLosesRule`,
  `RuleOverlaps.LostRuleHappens`). Applying such a store is still all or nothing.
* `resolveWebDomain` is not a fixed point exactly when the base domain ends in a dot or space, and a base may be
  stored so (`WebDomain.ResolveFixedPointIff`, `WebDomain.ResolveMovesOn`).
* `%q` writes escapes that TOML does not have exactly for strings with certain control characters
  (`Quoting.ReadQuoted`, `FrpConfigToml.ConfigIsTomlIff`, `Quoting.BellIsNotToml`).
* Overlapping requests lose updates, exactly when one replaces the store from a snapshot that no longer agrees
  with it elsewhere (`RuleStore.NoUpdateLostIff`, `RuleOverlaps.LostUpdateHappens`).
* They can store an enabled rule that fails validation, exactly when a node is set in place against the rules
  enabled by then (`RuleOverlaps.StoredRulesRender`, `RuleOverlaps.InvalidRuleHappens`). They never store two
  rules that clash (`RuleStore.StoredStatesConsistent`).
* Overlapping reloads can record a restart key the process was not started with, exactly when a reload ends on
  an entry of another configuration (`ProcessSteps.RecordsTrueIff`, `ProcessSteps.MisrecordHappens`).

## Reading the model

* Texts are sequences of characters, read as ASCII: case folding, trimming and `%q` are modelled for that
  range. Times are integers. Integers are unbounded except in the hash (64 bits, wrapping), the block
  counter (four octets) and `strconv.Atoi` (64 bits).
* Parameters stand for library code and chance: `net.ParseIP`, HMAC-SHA-256 (any function to 32 octets),
  `HashToken`, generated ids and tokens. Ids are assumed fresh only where a lemma says so.
* Killing and releasing a process succeed, files can be written and the store can be saved; what the code
  does when they fail it does not undo.

## Model

| member | source | states |
|---|---|---|
| AdminPorts.HashStepInRange | internal/client/service.go:2298-2308 | After the exclusive or the value stays below 2^63, and the wrapped product with the odd multiplier is never the smallest 64-bit integer, whose negation would stay negative |
| AdminPorts.StableSmallHash | internal/client/service.go:2298-2308 | For every text the loop of exclusive or, wrapping multiplication and negation computes the recursive hash, and the result is never negative |
| AdminPorts.HashStepMeans | internal/client/service.go:2298-2308 | Each character multiplies by 16777619, up to a multiple of 2^64 and the sign |
| AdminPorts.ProbeAbove | internal/client/service.go:2262-2276 | Started above the base, probing finds a free port above the base exactly when there is one, never meets the base, and otherwise goes round for ever |
| AdminPorts.ProbeBelow | internal/client/service.go:2262-2276 | Started below the base, probing takes the first free port before the base or gives up when it meets the base |
| AdminPorts.EndlessNeverExits | internal/client/service.go:2262-2276 | For any base, start and map: the model says that the loop never ends if and only if, however often it has stepped, neither of its exits applies |
| AdminPorts.ProbePort | internal/client/service.go:2262-2276 | The inner loop returns what the recursive definition of probing gives, for every input; where the source goes round for ever it says so instead |
| AdminPorts.ProbeExits | internal/client/service.go:2262-2276 | Where the inner loop ends, it ends on the first port it tries that is free or the id's own, or, when a step lands on the base before that, without one; the ports before were all taken |
| AdminPorts.AssignAdminPorts | internal/client/service.go:2252-2283 | The outer loop with its two maps computes the assignment, including both errors and the order of the ids |
| AdminPorts.AssignSucceedsIff | internal/client/service.go:2252-2296 | For every base in 1..65535 and all ids, repeated or not: the assignment succeeds if and only if the ids with a candidate above the base number at most the ports above it and, from no port below the base on, do more ids start than there are ports before the base; it is then injective into 1..65535 and gives the base to "default" and to nothing else |
| AdminPorts.NeverReturnsIff | internal/client/service.go:2252-2296 | For every base in 1..65535 and all ids: the loop runs for ever if and only if some id, reached with room for all before it, is one too many above the base |
| AdminPorts.AssignSucceeds | internal/client/service.go:2252-2283 | It ends without error for all ids other than "default" that number at most the ports above the base, and at most 54512 when candidates may fold |
| AdminPorts.AssignedApart | internal/client/service.go:2252-2283 | Whatever the base and the ids, a completed assignment gives valid ports, each owned by one id |
| AdminPorts.AssignedPortsDiffer | internal/client/service.go:2252-2283 | Two different ids never get the same port |
| AdminPorts.AssignReturnsIff | internal/client/service.go:2252-2283 | With at most 54512 ids below the base the loop returns, successfully, if and only if the ids above the base number at most the ports there |
| AdminPorts.ProbingHangs | internal/client/service.go:2252-2296 | A concrete call: with the admin port 55535 ten thousand given ids get their ports, and one id more makes the call go round for ever |
| Bits.OddMultipleMissesMinimum | internal/client/service.go:2298-2308 | A value below 2^63 times an odd number, wrapped to 64 bits, is never the smallest integer |
| Pbkdf2.XorInto | internal/security/security.go:108-115 | The innermost loop turns t into the octetwise exclusive or of t and u, in place |
| Pbkdf2.Pbkdf2Sha256 | internal/security/security.go:91-119 | The nested loops compute the derived key of section 5.2 of RFC 8018 for every password, salt, count >= 1 and length, of exactly that length |
| Pbkdf2.CounterIsInt | internal/security/security.go:97-100 | Below 2^32 the four shifted octets are INT(i), most significant octet first |
| Pbkdf2.CounterRepeats | internal/security/security.go:97-100 | Block counters 2^32 apart give the same octets, so the bound is needed |
| Pbkdf2.DerivedOctet | internal/security/security.go:91-119 | Octet n of the derived key is octet n mod 32 of block n div 32 + 1 |
| Pbkdf2.ShorterKeyIsPrefix | internal/security/security.go:91-119 | A shorter derived key is a prefix of a longer one |
| Pbkdf2.FirstRounds | internal/security/security.go:91-119 | One round gives what HMAC makes of the password and the salt with the octets 0, 0, 0, 1; a second adds what it makes of that |
| Base64Url.RoundTrip | internal/security/security.go:39-43 | Unpadded base64url (section 5 of RFC 4648) decodes to the octets that were encoded |
| Password.RecordAcceptsIff | internal/security/security.go:33-65 | The record of a password accepts a guess if and only if both derive the same key; in particular it always accepts the password itself, for every password and salt |
| Password.VerifyPasswordIff | internal/security/security.go:46-65 | A password passes if and only if the record has four fields, names the scheme and at least 100000 rounds, and holds a salt and a key that the password derives |
| PortRanges.ParseRanges | web/src/pages/client/Nodes.tsx:71-88 | Every list the form accepts is nonempty and passes the range checks of both services; only blank input means no list |
| PortRanges.ParseRangeIff | web/src/pages/client/Nodes.tsx:76-87 | The form accepts a piece if and only if it is one port, or two with a dash among spaces between them, in order and within 1024..65535 |
| PortRanges.PiecesSplit | web/src/pages/client/Nodes.tsx:75 | Commas and line breaks, as many as there are, end a piece |
| PortRanges.ParseFormatRoundTrip | web/src/pages/client/Nodes.tsx:67-88 | Printing a nonempty list of valid ranges and parsing the text gives the same list in the same order |
| PortRanges.NormalizePreserves | internal/client/service.go:2608-2623 | Sorting the ranges is a permutation in order of the bounds and changes neither their validity nor which remote ports are allowed |
| WebDomain.SqueezeLoop | internal/client/service.go:2053-2077 | The sanitizer loop, which writes a dash only between kept characters, computes the recursive definition |
| WebDomain.SanitizeSubdomainMeaning | internal/client/service.go:2053-2077 | The sanitizer yields a valid label of at most 63 characters, is idempotent, and yields nothing exactly when the text has no letter or digit |
| WebDomain.SanitizeSubdomainIsWords | internal/client/service.go:2053-2077 | The subdomain is the lower-case words of the text, as dashes, underscores, spaces and dots separate them and other characters vanish, joined by single dashes and cut to 63 characters |
| WebDomain.SanitizeNodeIdMeaning | internal/client/service.go:2625-2649 | The node id sanitizer yields the empty text or a valid node id, and a fixed point |
| WebDomain.SanitizeNodeIdIsWords | internal/client/service.go:2625-2649 | The node id is the words of the name likewise, cut to 64 characters, if at least two are left |
| WebDomain.ResolveIsValid | internal/client/service.go:1757-1809 | A resolved domain lies under the base, equals subdomain, dot and base whenever a subdomain is returned, and passes validateWebRule |
| WebDomain.ResolveSucceedsIff | internal/client/service.go:1757-1792 | A request is accepted if and only if the node has a base domain, a requested subdomain is a label, and a requested domain lies under the base and belongs to the requested subdomain, if there is one |
| WebDomain.ResolveIff | internal/client/service.go:1757-1792 | An accepted request has just one fitting answer: the subdomain and the domain asked for; for a domain alone the label it has before the base, if it has one; and for neither the label of the name or, without letters and digits in it, of the id |
| WebDomain.ResolveFindsSubdomain | internal/client/service.go:1772-1781 | When no domain is asked for and the id holds a letter or digit, a subdomain is always found |
| WebDomain.ResolveFixedPointIff | internal/client/service.go:1757-1792 | Resolving the result again gives the result for all inputs if and only if the base domain ends in neither a dot nor a space |
| WebDomain.ResolveMovesOn | internal/client/service.go:1757-1792 | A concrete base that can be stored, and a request whose result resolves to another one |
| Quoting.ReadQuoted | internal/frp/config.go:140-142 | Whatever follows, a quoted string reads back as the string: with the escapes of Go always, with those of the basic strings of TOML v1.0.0 if and only if its only control characters are backspace, tab, line feed, form feed and carriage return |
| Quoting.BellIsNotToml | internal/frp/config.go:140-142 | A concrete string whose quoted form TOML does not read |
| FrpConfigToml.ConfigIsTomlIff | internal/frp/config.go:48-158 | A TOML reader of tables, arrays of tables, keys and values reads the rendered text if and only if no string written holds a control character other than those five, and then finds under its tables and keys the configuration with its defaults filled in |
| Order.SortedKeysOfTraversal | internal/frp/config.go:129-138 | Whatever order a map is traversed in, sorting the keys gives the same list |
| Order.SortedMapKeys | internal/frp/config.go:129-138 | Collecting the keys in any order and sorting them gives that list |
| Order.StrLeIff | internal/frp/config.go:129-138 | Keys are ordered by the first character in which they differ, a prefix before the longer one |
| FrpConfig.WriteKV | internal/frp/config.go:140-142 | Appends the line of one key and quoted value |
| FrpConfig.WriteKVInt | internal/frp/config.go:144-146 | Appends the line of one key and number |
| FrpConfig.WriteArray | internal/frp/config.go:148-158 | Appends the line of one key and list of quoted values |
| FrpConfig.WriteMap | internal/frp/config.go:129-138 | Appends the map as sorted lines, the same for every iteration order |
| FrpConfig.WriteProxy | internal/frp/config.go:77-103 | Appends one proxy section, with exactly the optional lines the source writes |
| FrpConfig.WriteVisitor | internal/frp/config.go:105-113 | Appends one visitor section |
| FrpConfig.RenderClientConfig | internal/frp/config.go:48-116 | The builder ends with the text of the configuration as a document of lines |
| FrpConfigLines.ReadPrintedDoc | internal/frp/config.go:48-116 | With either syntax a line reader recovers a well-formed document from its text if and only if it can read every string in it |
| FrpConfigTables.ReadConfigDoc | internal/frp/config.go:48-116 | Every rendered document is one of TOML tables and arrays of tables, in which no table, array or key is defined twice, and holds exactly the tables of the configuration; the reader knows no order of tables or keys |
| FrpConfigDecode.DecodeRender | internal/frp/config.go:48-116 | With the escapes of %q, looking up tables and keys in the rendered text always gives back the configuration with its defaults filled in, when metadata keys are bare |
| FrpConfigDecode.DecodedMetadata | internal/frp/config.go:62-75 | The text holds the metadata of the configuration, or, if it has none, its group credentials as three keys |
| FrpConfigDecode.RenderEqualIff | internal/frp/config.go:48-116 | Two configurations render to the same text if and only if they are equal up to the documented defaults |
| FrpConfigDecode.RenderOfNormal | internal/frp/config.go:48-116 | Filling in the defaults first does not change the text |
| ProcessManager.Manager.StopKey | internal/client/process.go:336-360 | Removes the entry and kills its process, and nothing else |
| ProcessManager.Manager.StartKey | internal/client/process.go:66-134 | Leaves a running entry alone, fails without a path or when the start fails, otherwise records a new process under the key |
| ProcessManager.Manager.ReloadKey | internal/client/process.go:175-212 | Restarts, starts or reloads the key, and records the new settings after a reload |
| ProcessManager.Manager.Apply | internal/client/process.go:144-173 | The loops stop the stale entries and then reload the configurations in the order of their node ids, up to the first failure |
| ProcessManager.Manager.MarkExited | internal/client/process.go:122-131 | The waiting goroutine marks its own entry and no later one of the same key |
| ProcessManager.Manager.StopAll | internal/client/process.go:323-334 | Stops every entry, in key order |
| ProcessManager.AppliedCoherent | internal/client/process.go:144-212 | Undisturbed calls keep every live process the entry of its key, whatever succeeds or fails |
| ProcessManager.ApplyConverges | internal/client/process.go:144-212 | After a successful Apply in which configurations of one key ask for the same process, the running keys are exactly the desired ones, each with its configuration, and a process kept its pid if and only if it was running with the same frpc, config path and restart key |
| ProcessManager.ApplyTwiceChangesNoProcess | internal/client/process.go:144-212 | A second successful Apply of the same configurations starts nothing, kills nothing and changes no pid |
| ProcessManager.ApplySucceeds | internal/client/process.go:144-212 | Apply succeeds when every start and reload it may try does |
| ProcessManager.ReloadFailsIff | internal/client/process.go:175-212 | A configuration fails if and only if its process has to be started and there is no frpc or the start fails, or it runs as recorded and the reload command fails; a process that needed a restart has then been stopped, and otherwise nothing has changed |
| ProcessManager.FailedApplyStops | internal/client/process.go:144-173 | A failed Apply has gone through the configurations in the order of their node ids up to one that failed; the keys of later ones are as they were |
| ProcessManager.StopAllLeavesNothing | internal/client/process.go:323-334 | StopAll leaves no entry and no live process |
| ProcessManager.AppliedFaithful | internal/client/process.go:175-212 | Undisturbed calls keep each entry recording what its process was started with |
| ProcessSteps.NoOrphans | internal/client/process.go:66-380 | For every interleaving of calls and exits at the lock boundaries, each live process is the entry of its key or held by a stopKey about to kill it, so no key has two live processes that nobody is about to kill |
| ProcessSteps.QuietMeansCoherent | internal/client/process.go:66-380 | When no call is in progress the table knows every live process |
| ProcessSteps.ApplyIsRun | internal/client/process.go:144-212 | The undisturbed Apply is one of the runs of the locked parts, so both models speak of the same code |
| ProcessSteps.RecordsTrueIff | internal/client/process.go:66-380 | For every interleaving from the start of the manager: the table always records what each process was started with if and only if every successful reload ends on a key without an entry or with one of its own config path and restart key |
| ProcessSteps.RecordsTrue | internal/client/process.go:175-212 | That is so in every run in which no process is started for a key while another call reloads the key with another configuration |
| ProcessSteps.MisrecordHappens | internal/client/process.go:175-212 | From the start of the manager, for any two configurations with different restart keys, a run whose calls all succeed and that ends with a record that is not true |
| ProcessSteps.OverlappingReloadsMisrecord | internal/client/process.go:175-212 | The two overlapping reloads that do it, from any state in which the key runs |
| Rules.BuildNode | internal/client/service.go:2486-2516 | A node that is accepted has a valid id |
| Rules.UpdateNode | internal/client/service.go:2518-2562 | An updated node keeps its id |
| Rules.BuildPortRule | internal/client/service.go:1544-1623 | A rule that is accepted has the given id and passes validation |
| Rules.PreparedConsistent | internal/client/service.go:425-534 | Whatever a request plans from a consistent snapshot is consistent again |
| Rules.PortRequestEffect | internal/client/service.go:425-534 | A planned port request changes nothing but its own rule, which is then gone, switched as asked and otherwise the same, or one that passed validation |
| Rules.RoomRequestEffect | internal/client/service.go:698-740 | A planned room request changes nothing but its own rule |
| RuleChecks.PortRuleValidIff | internal/client/service.go:1690-1809 | A port rule passes if and only if it has an id and a node with address, port and token, a name, a known protocol, a local address and port, a domain under the node's base or a port in its ranges, and no other rule of the node and protocol has its domain, whatever the case, or its port; a missing node, a taken remote end and all else are told apart |
| RuleChecks.RoomRuleValidIff | internal/client/service.go:1625-1688 | A room rule passes if and only if its fields fit and no other enabled visitor listens at its address |
| RuleChecks.BuiltPortRuleIff | internal/client/service.go:1544-1605 | A request gives a rule if and only if that rule has every field as asked, with the defaults of the source and the answer of the web domain, is valid, and its node allows the domain asked for |
| RuleChecks.PortRequestIff | internal/client/service.go:425-490 | Creating or updating plans the one rule as asked and nothing else, exactly when there is a valid one |
| RuleChecks.PatchRoomSucceedsIff | internal/client/service.go:698-724 | A room rule can be switched if and only if it is there, its fields fit and its address is free among the rules with it switched |
| RuleChecks.BuildNodeIff | internal/client/service.go:2486-2623 | A form gives a node if and only if the node has every field as asked, with the defaults, sorted ranges and its token, the id asked for, else one made of the name, else a generated one, and fits |
| RuleChecks.UpdateNodeIff | internal/client/service.go:2518-2623 | An update likewise, which keeps id and time of creation and, unless the token is set or cleared, the token |
| RuleChecks.BuiltNodePlans | internal/client/service.go:268-307 | A changed node is applied with everything if an enabled rule uses it, and set in place otherwise; no other node changes |
| RuleChecks.StoredEndsDiffer | internal/client/service.go:1737-1751 | No two rules of a consistent store share node, protocol and port, or node and domain whatever its case |
| Served.ProcessIdsAre | internal/client/service.go:1309-1357 | Rendering has one process for each node of an enabled rule and each enabled room; without any, for the default node or another one there is |
| Served.ProcessIdsInOrder | internal/client/service.go:1346-1354 | The default node comes first and the others follow by id, which is the order in which they get admin ports |
| Served.NodeClientSpeaks | internal/client/service.go:1393-1420 | The configuration of a node connects to it with its token, listens where the settings say, and holds one proxy for each enabled rule of the node, the oldest first: name, type, local address and port, remote port or domain and host header as the rule says |
| Served.RoomClientSpeaks | internal/client/service.go:1422-1462 | The configuration of a room connects to its server with the room's metadata and holds just the proxy of its host, or just the visitor, as the rule says |
| RuleStore.StoredStatesConsistent | internal/client/service.go:2107-2145 | However snapshots, commits, rollbacks to stale snapshots and in-place changes interleave, every stored state keeps key = id, the node of every port rule, and no two rules with one domain (case-insensitively), one protocol and port of a node, or one visitor address |
| RuleStore.NoUpdateLostIff | internal/client/service.go:2107-2145 | In every reachable state a step changes nothing but what its request is about if and only if it does not replace the store, or its snapshot still agrees with the store on everything else; commits, rollbacks and in-place node changes alike |
| RuleOverlaps.LostUpdateHappens | internal/client/service.go:425-457 | From a concrete store, for any two ids and ports: two overlapping creates that both render and commit, after which only the second rule is stored |
| RuleStore.OverlappingCreatesLoseOne | internal/client/service.go:425-457 | Any two overlapping creates that render both succeed and the first rule is lost |
| RuleOverlaps.StoredRulesRender | internal/client/service.go:268-307 | With commits gated on rendering, every enabled rule of every stored state of every interleaving is valid if and only if each node is set in place to a configuration that the rules enabled by then on that node accept |
| RuleStore.StoredRulesValid | internal/client/service.go:288-299 | In particular when each node is set in place while no enabled rule uses it, the guard the source checks on its snapshot |
| RuleOverlaps.InvalidRuleHappens | internal/client/service.go:268-307 | From a concrete store, for any rule on a port below 3000: a run whose replacement renders and that stores the rule enabled and invalid |
| RuleOverlaps.LostRuleHappens | internal/client/service.go:1346-1373 | A concrete store, for any rule id and port: it is consistent and renders, and its one enabled port rule, whose node is named like the process of a room, is in none of the configurations |
| RuleStore.OverlappingNodeChangeEscapesValidation | internal/client/service.go:268-307 | Any overlapping pair of enabling a rule and narrowing its node does so |
| DirectRender.SafeFilePart | internal/client/service.go:2330-2344 | The result is nonempty, made of id characters, and the text itself when that already was |
| DirectBuild.SortPortRules | internal/client/service.go:2366-2378 | Traversing the map in any order and sorting gives one and the same list, when rules that tie are equal |
| DirectBuild.SortRoomRules | internal/client/service.go:2380-2392 | The same for room rules |
| DirectBuild.GroupPortRules | internal/client/service.go:1311-1320 | The loop stops at the first invalid enabled rule and otherwise groups the enabled rules by node, each group in order |
| DirectBuild.CollectRoomRules | internal/client/service.go:1321-1330 | The loop stops at the first invalid enabled rule and otherwise collects the enabled ones |
| DirectBuild.CollectIds | internal/client/service.go:1332-1354 | The process ids do not depend on the traversal of the groups |
| DirectBuild.RoomsByProcess | internal/client/service.go:1360-1363 | The map filled by the loop finds the last room of each process id |
| DirectBuild.NodeConfiguration | internal/client/service.go:1393-1420 | The loop appends one proxy for each rule of the node, in order; an unknown node is an error |
| DirectBuild.ConfigureIds | internal/client/service.go:1359-1391 | One configuration per process id, or the first error |
| DirectBuild.FallbackNode | internal/client/service.go:2346-2364 | Without an enabled rule the default node is taken, else the first stored one, else the id "default" |
| DirectBuild.BuildDirectFrpcConfigs | internal/client/service.go:1309-1391 | Whatever order the maps are traversed in, the loops compute Render |
| DirectPartition.ActivePortsFacts | internal/client/service.go:1312-1320 | The active port rules are the enabled ones, each once |
| DirectPartition.ActiveRoomsFacts | internal/client/service.go:1321-1330 | The active room rules are the enabled ones, each once |
| DirectPartition.RenderPartitions | internal/client/service.go:1309-1391 | Each enabled rule appears exactly once over all configurations, and nothing else does, if and only if no node with an enabled rule carries the id of an active room's process |
| DirectPartition.ClashLosesRule | internal/client/service.go:1364-1373 | A rule whose node carries the id of an active room's process appears in no configuration |
| DirectApart.ConfigPathsDiffer | internal/client/service.go:2235-2240 | Different ids have different config paths |
| DirectApart.LogPathsDiffer | internal/client/service.go:2242-2250 | Different ids have different log paths |
| DirectApart.ConfigsApart | internal/client/service.go:1309-1391 | No two configurations of one rendering share an id, process key, config path, log path or admin port |
| DirectApart.RestartKeyInjective | internal/client/service.go:2310-2321 | On fields without NUL two restart keys are equal if and only if all eight defaulted fields are |
| Rendering.RenderedMergeable | internal/client/service.go:1208-1220 | Whatever renders from a consistent store: configurations with one path have one text, and those with one process key the same config path and restart key |
| Rendering.RenderReadsEnabledNodes | internal/client/service.go:1309-1391 | With a rule enabled, rendering depends on no node that enabled rules do not use |
| Rendering.RenderSucceedsIff | internal/client/service.go:1309-1391 | With a rule enabled and an admin port in 1..65535, rendering succeeds if and only if every enabled rule is valid and the admin ports can be assigned |
| Transaction.WriteAllEffect | internal/client/service.go:2190-2200 | Writing configurations of which those with one path have one text leaves each its text and touches no other file |
| Transaction.AllOrNothing | internal/client/service.go:2107-2145 | applyData changes nothing unless the new data renders, the path of frpc is not blank and frpc accepts every rendered text; then it stores the new data with all new texts, or the old data with the old text at every old path, or, if the old data does not render, the old data alone; for every outcome of the processes |
| Transaction.RefusedChangesNothing | internal/client/service.go:2107-2181 | Data that does not render, a blank path, or one text that frpc refuses: nothing is written, stored or applied, and the answer is the error of the first of these |
| Transaction.FailureLeavesOnlyNewFiles | internal/client/service.go:2130-2143 | After a failed apply files differ from before at most at paths only the new configurations use |
| Rendering.DirectAllOrNothing | internal/client/service.go:2107-2145 | The same for the renderer of the source and every consistent old and new store, whatever its nodes are called |
| Agreement.NextGood | internal/client/service.go:248-534 | One request, process exit or reaping keeps the agreement and what it rests on |
| Agreement.RunsAgree | internal/client/service.go:248-534 | Once an apply has succeeded, every sequential run keeps the text of each rendered configuration in its file and a table entry with its config path and restart key, whenever a rule is enabled |
| Agreement.KeepsPidIff | internal/client/process.go:175-212 | A running process keeps its pid through a successful Apply if and only if frpc path, config path and the eight restart fields of its configuration are unchanged |
| EndToEnd.ConfiguredText | internal/client/service.go:1359-1391 | The text of every configuration of direct mode decodes to that configuration with its defaults |
| EndToEnd.EnabledRulesAreServed | internal/client/service.go:2107-2145 | After a successful applyData the file of each node with an enabled rule, read with the escapes of %q, or as TOML where the strings are ones TOML can write, says of the node, of the assigned admin port and of every enabled rule of the node what these say, field by field and nothing more; and so does the file of each enabled room |
| EndToEnd.RunsServe | internal/client/service.go:248-534 | The same after every sequential run of requests that starts with a successful apply, when no active node is then named like an active room's process |
| DirectService.Service.RenderClientConfigs | internal/client/service.go:1208-1220 | Computes the configurations of direct mode, or the one of the group |
| DirectService.Service.VerifyRenderedConfigs | internal/client/service.go:2147-2181 | Accepts exactly when the path is not blank and frpc accepts the text of every configuration |
| DirectService.Service.WriteRenderedConfigs | internal/client/service.go:2190-2200 | Writes each text to its path, in order |
| DirectService.Service.ApplyData | internal/client/service.go:2107-2145 | The statements do what the transaction proved all-or-nothing says, on store, files and processes |
| DirectService.Service.Install | internal/client/service.go:2118-2145 | Files, store and processes are changed in this order and rolled back in this order |
| DirectService.Service.Submit | internal/client/service.go:425-534 | A request plans from a snapshot and then applies or changes in place |
| DirectService.Service.CreateNode | internal/client/service.go:248-266 | Adds a node unless its id is taken |
| DirectService.Service.DeleteNode | internal/client/service.go:309-330 | Removes a node no rule uses |
| Storage.JSONFile.Update | internal/storage/json_file.go:59-72 | A closure works on the normalised value; only when it succeeds is the value normalised again and saved, and what a failing closure has changed stays in memory |
| Storage.MemoryIsSaved | internal/storage/json_file.go:59-72 | Memory and file agree through any updates whose closures change nothing when they fail |
| Storage.SavedIffHarmless | internal/storage/json_file.go:59-72 | An update keeps memory and file in agreement from every saved state if and only if its closure changes no normalised value when it fails |
| ControlStore.FileHoldsStore | internal/control/service.go:60-646 | However the control server's operations interleave and fail, its file holds the data in memory, and that data satisfies the invariant |
| ControlModel.CodeLeadsToRoom | internal/control/service.go:594-600 | The code handed out for a room parses back to the room's id |
| ControlModel.CreatedRoomCanBeJoined | internal/control/service.go:408-521 | Joining with the code CreateRoom returned succeeds, as the second member |
| ControlSteps.NextSound | internal/control/service.go:60-646 | One locked section of any operation, between any others, keeps the invariant: keys are ids, public exposures have their node and an allowed port, devices, routes and room devices have what they refer to, ports and domains do not clash, each room has one host; and with it pending authentications and member counts |
| ControlSteps.ReachableStates | internal/control/service.go:60-646 | For every interleaving of the two-section operations with fresh ids, every reachable state satisfies the invariant and each room has one member more than successful joins |
| ControlSteps.FailedSectionsAreHarmless | internal/control/service.go:60-646 | No locked section that fails has changed anything, although Update has no undo |
| ControlSteps.RejectedChangesNothing | internal/storage/json_file.go:59-72 | A section that authenticates or fails changes at most the times devices were last seen |
| ControlSteps.RejectedOperation | internal/control/service.go:203-390 | A rejected device operation leaves the data unchanged up to LastSeenAt, whichever section rejects it |
| ControlSteps.RejectedRoomOperation | internal/control/service.go:536-586 | The same for operations on rooms |
| ControlSteps.RoomsThroughTime | internal/control/service.go:408-586 | Through any run a room is gone for good or the same room, with the same host device, server name and code |
| ControlAuth.GroupTokenLasts | internal/control/service.go:87-121 | The token that JoinGroup hands out authenticates its device after every run, in its own group and no other, and no token with another hash ever does |
| ControlAuth.RoomTokenLasts | internal/control/service.go:620-646 | The token of a room device authenticates it through every run while the room is there, in its own role, a host even while the room is disabled, and no token with another hash does |
| ControlAuth.GroupAdmits | internal/control/service.go:60-121 | After CreateGroup and any run, joining succeeds exactly with a name and a password that fits the record made then |
| ControlAuth.GroupAdmitsItsPassword | internal/security/security.go:33-65 | With the records of HashPassword that means: with the password itself, and with another one only if PBKDF2 derives the same key |
| ControlAuth.RoomOfCodeIff | internal/control/service.go:594-600 | A code names the room before its first dot if something stands on both sides |
| ControlAuth.RoomAdmits | internal/control/service.go:408-521 | After CreateRoom and any run, joining with a code that names the room succeeds exactly with a name, while the room is there and enabled, and with a code of the hash of the one handed out |
| ControlOwners.PublicIff | internal/control/service.go:238-300 | A public exposure is accepted if and only if the local service and protocol fit, the node is there and allows the port or has a suffix for the domain, and no exposure of the node is in that place; it is then as asked, in the name of the device, and otherwise the error tells which check failed |
| ControlOwners.NewExposureIsOwned | internal/control/service.go:203-300 | Every new exposure belongs to a device that has authenticated with its own token and is as that device asked |
| ControlOwners.OnlyOwnerChangesExposure | internal/control/service.go:302-346 | An exposure is changed or deleted only by a step of the device that made it, known by its token, and a change is only to whether it is enabled |
| ControlOwners.OnlyHostChangesRoom | internal/control/service.go:536-586 | The same for rooms and their hosts |
| ControlOwners.ReachableOwners | internal/control/service.go:203-586 | In every reachable state of every interleaving and whatever step comes next, no exposure or room changes or goes but by a step of its owner, which is known by its token |
| ControlOwners.ReachableExposures | internal/control/service.go:238-300 | In every reachable state each public exposure has its node, at an allowed port or under a suffix of the node, no two are in one place, and each belongs to a device of its group |
| ControlPlugin.PluginContent.FillMetadatas | internal/control/plugin.go:212-216 | The loop adds the user's metadata under the keys the proxy does not have, whatever the order |
| ControlPlugin.PluginContent.Normalize | internal/control/plugin.go:193-217 | Main spellings win over alternatives and the proxy's metadata over the user's |
| ControlPlugin.NormalContentMeans | internal/control/plugin.go:193-217 | Field by field, the main spelling counts unless it is empty, and key by key the proxy's own metadata before the user's |
| ControlPlugin.ReachablePublicProxyUnique | internal/control/plugin.go:96-132 | In every reachable state two accepted NewProxy requests for public exposures of one node with the same tcp or udp port name the same exposure |
| ControlPlugin.OnlyMakerOpensProxy | internal/control/plugin.go:96-132 | Whatever happens after a device has made an exposure, NewProxy is accepted for it if and only if the request names that device and its group and, for a public one, the type, port and domain asked for then, while it is there and enabled |
| ControlPlugin.RoomDecisionsIff | internal/control/plugin.go:68-183 | Login, NewUserConn and NewProxy for a room let in exactly a device of the room with its own token, for NewProxy the host |
| ControlPlugin.NoMoreExposuresThanPorts | internal/control/service.go:692-711 | A node never has more tcp, or udp, exposures than ports it allows |
| ControlPlugin.RoomProxyOnlyFromHost | internal/control/plugin.go:160-183 | A room proxy that is accepted carries the room's name and comes from its host device, whatever happened between authentication and decision |
| ControlPlugin.OneDevicePerRoomProxy | internal/control/plugin.go:160-183 | One room proxy name is never accepted from two devices |
| ControlPlugin.DeletedRoomStaysOut | internal/control/plugin.go:68-183 | After DeleteRoom, whatever follows, no Login, NewProxy or NewUserConn for the room is accepted |
| ControlPlugin.DisabledRoomStaysOut | internal/control/plugin.go:68-183 | Nor while the room is disabled, through any run until its host enables it |
| ControlPlugin.DeletedExposureStaysOut | internal/control/plugin.go:96-158 | After DeleteExposure, whatever follows, neither NewProxy nor NewUserConn is accepted for the exposure |
| ControlPlugin.DisabledExposureStaysOut | internal/control/plugin.go:96-158 | Nor while it is disabled, through any run until its owner enables it |
| ControlPlugin.DeviceLoginLasts | internal/control/plugin.go:68-94 | A group device that could log in can do so after any run |
| ControlService.RangeAllows | internal/control/service.go:692-702 | The loop finds out whether the ranges, or without ranges 1024..65535, hold the port |
| ControlService.IsPortInUse | internal/control/service.go:704-711 | The loop over the exposures in any order finds a clash of node, protocol and port exactly when there is one |
| ControlService.IsDomainInUse | internal/control/service.go:713-720 | The same for domains, ignoring case |
| ControlService.MemberCount | internal/control/service.go:682-690 | The loop counts the devices of the room |
| ControlService.Service.CreateGroup | internal/control/service.go:60-85 | Adds a group, or answers which check failed |
| ControlService.Service.JoinGroup | internal/control/service.go:87-121 | Adds a device after checking the password |
| ControlService.Service.CreateNode | internal/control/service.go:136-172 | Adds a node with valid port ranges |
| ControlService.Service.DeleteNode | internal/control/service.go:174-187 | Removes a node after scanning the exposures |
| ControlService.Service.ValidateDevice | internal/control/service.go:602-618 | Accepts a known device with its token and records when it was seen |
| ControlService.Service.CreatePrivateExposure | internal/control/service.go:203-236 | Both sections, in order |
| ControlService.Service.CreatePublicExposure | internal/control/service.go:238-300 | Both sections, in order, with the node's port and domain checks |
| ControlService.Service.UpdateExposure | internal/control/service.go:302-324 | Both sections, in order; only the owner may switch |
| ControlService.Service.DropRoutes | internal/control/service.go:339-344 | The cascade removes exactly the routes to the exposure |
| ControlService.Service.DeleteExposure | internal/control/service.go:326-346 | Both sections, in order; the exposure and exactly its routes go |
| ControlService.Service.CreateAccessRoute | internal/control/service.go:348-390 | Both sections, in order |
| ControlService.Service.CreateRoom | internal/control/service.go:408-473 | Adds a room and its host device |
| ControlService.Service.JoinRoom | internal/control/service.go:475-521 | Adds a visitor with the right code and answers the member count |
| ControlService.Service.ValidateRoomDevice | internal/control/service.go:620-646 | Accepts a room device with its role and token; a disabled room only for hosts |
| ControlService.Service.UpdateRoom | internal/control/service.go:536-564 | Both sections, in order |
| ControlService.Service.DropDevices | internal/control/service.go:579-583 | The cascade removes exactly the room's devices |
| ControlService.Service.DeleteRoom | internal/control/service.go:566-586 | Both sections, in order; the room and exactly its devices go |

## Left out

- DirectBuild.FallbackNode: the source takes whichever node its map yields first; the model takes the one with the least key. Only rendering without any enabled rule depends on it.
- DirectBuild.BuildDirectFrpcConfigs: requires that rules with one id and creation time are equal, which holds of every stored state; on others the source's result depends on the traversal of its map.
- DirectService.Service.ApplyData: requires the same of the old and the new data.
- AdminPorts.ProbePort: a loop that goes round for ever cannot be written as such; the method stops at the second wrap and answers `Endless`, which `EndlessNeverExits` shows to mean just that.
- FrpConfigTables.ReadConfigDoc: the reader knows the TOML that the renderer can write: one statement a line, bare keys, headers of at most two names, basic strings, integers and one-line arrays of strings.
- FrpConfigDecode.DecodeRender: requires metadata keys of letters, digits, `_` and `-`; the source writes keys unquoted, so with others the text has no unique reading.
- ProcessManager.Manager.StartKey: opening the log file and starting the process are one outcome; process ids are never reused.
- Entries of the process table are values in a map rather than shared objects: the goroutine that waits for a process finds its entry by key and pid, and the source's note in a detached entry that its process has vanished is recomputed on each look.
- Last errors, status views, logs and the reload command's output.
- The configuration a client renders for a group when it has no rules: its text is a parameter.
- Requests that configure the server, join a group or change frpc settings, and the calls to the control server before a room rule is saved.
- Go's `sort.Slice` is any permutation into order; the orders used here admit only one. `filepath.Join` joins with a slash and does not clean the path.
- Failures of saving or of writing some of several files, after which the source does not restore the state.
- HTTP handlers, JSON encoding, command line, doctor checks, NAT and DNS probes, redaction of secrets and the web pages other than the port range form.
- Views of the control data: lists, room views and their sorting.
- The answer to plugin operations other than the three modelled ones, which is always to accept.
