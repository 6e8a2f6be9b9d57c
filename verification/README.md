# Nostr identity, permissions and messaging cores, modelled and proved in Dafny

The project models the stateful cores behind the packages' I/O and proves what they promise. Each core is
written in the form its source has: functions and lemmas where the source computes, methods with loops and
classes with fields where it changes things in place. Each method is proved equal to a specification
function, and the properties are lemmas about those functions, over every input or every run.

- **The NIP-46 responder** (`Bunker*.dfy`). `BunkerModel` is a deterministic machine: one event is one
  stretch of code between two awaits, so `connect` and the `nostrconnect://` scan are each a begin event and
  a settle event, and a run is any interleaving of them with mints, revocations, disconnects, exports,
  restores and restarts. A secret's record has an identity apart from its key, since the code compares the
  record object. `BunkerInvariants`, `BunkerRestore`, `BunkerRuns`, `BunkerBindings`, `BunkerSweep`,
  `BunkerOwners`, `BunkerRoundTrip`, `BunkerPortable` and `BunkerFirm` prove its properties, and
  `BunkerWitnesses` holds the runs that show what their conditions are for. `BunkerServer` is the server
  as it runs, with shared mutable records, proved against the machine method by method. `BunkerLaws` and
  `BunkerRestoreLaws` say what each event answers and leaves, a restore of an arbitrary state included.
- **Permissions** (`PermissionKey`, `PermissionStore`, `PermissionMigration`, `PermissionJournal`,
  `PermissionUngiven`, `PermissionOverlap`, `PermissionLaws`). The key cascade, the four inherited layers, the two migrations of
  the rule tree, the journal that makes their multi-key write recoverable, and a check that runs meanwhile.
- **Origins** (`Text`, `Scope`, `Origin`, `OriginLaws`). The parser and printer of `http(s)` and `ws(s)` origins, with IPv4
  and IPv6 addresses read and printed as RFC 5952 and the WHATWG URL Standard (sections 3.5 and 3.6) have it.
- **Query merging** (`QueryFilter`, `QueryGroups`, `QueryBatcher`, `QueryRouting`, `QueryLaws`). NIP-01 filters merged,
  overlapping author groups joined to a fixpoint, and the answers routed back.
- **Direct messages** (`DmCache`, `DmEviction`, `DmSession`, `DmLaws`). Threads, seen ids and the conversation list
  under ingest, hydration and an eviction that re-enters itself through the observable it announces on.
- **Destination grants** (`Grants`, `GrantLaws`), **the approval queue** (`ApprovalQueue`, `QueueLaws`), **the
  boundary's size checks** (`JsonText`, `SchemaSizes`, `SizeLaws`) and **NIP-44 padding** (`Padding`,
  `PaddingLaws`).

A module named `...Laws` tells what its subject does without naming the functions that do it: by the fields of
a record, the keys of a bucket, the characters of a text, and the constants as numbers. What those functions
compute is thereby fixed a second time, independently of how they are written.

## Where the code and a plain statement differ

Some promises hold only under a condition. The code is kept as it is; the condition is proved to be exact.

- A restored client may be seated over a secret that memory holds bound to it and unconfirmed. Clients stay
  backed by their own secret if and only if no restore does that (`BunkerRestore.RestoreIsAtomic`). In
  `BunkerWitnesses.TwoClientsOneSecret` one does, and two connected clients come to hold one secret.
- Three things leave a state whose export a fresh process refuses besides a half-bound restore. A scan
  approved while a `connect` of the same record is in flight leaves the client and its secret with different
  relays (`BunkerPortable.ScanOverConnect`), and so does restoring a client over a secret bound in memory
  (`BunkerPortable.RestoreOverBound`); both conditions are exact, and `BunkerWitnesses` has a run for each. A
  scanned key that is 64 hex characters and no point of the curve is written to the record before the
  handler runs, and confirmed with it: exports are refused while it is held, and once it is confirmed until
  someone revokes it (`BunkerFirm.ScanNeedsCurve`, `BunkerFirm.OffCurveBlocksExports`,
  `BunkerFirm.OffCurveScan`). With secrets and relay lists within the limits, and with half-bound restores and
  the two relay clashes kept out, a state makes the trip if and only if no secret it holds is bound to such a
  key (`BunkerPortable.ReachableStatesRoundTrip`).
- Consolidating to global rules keeps every value with "absent" read as `ask`, and refusals exactly. The whole
  answer may change in both directions, because an explicit `ask` ends the cascade and an absent key does not:
  `PermissionMigration.ConsolidationKeepsAnswers` is the exact condition, with two inputs beside it that
  violate it. In per-account mode the first migration may turn an allow into an `ask`, as
  `PermissionStore.WildcardIsNarrowed` shows and `PermissionStore.InheritanceKeepsAnswers` says exactly, and
  never the reverse.
- In shared mode the first migration drops the accounts' own buckets, so the second knows only the accounts
  the host gives (`PermissionJournal.KnownAfterInheriting`). An account it does not know reads the merged shared
  rules of all sites afterwards: it loses no refusal, may gain refusals, and may gain allows, as in
  `PermissionUngiven.UngivenIsGranted`. `PermissionUngiven.UngivenDenials` and `PermissionUngiven.UngivenGrants`
  say exactly when, from the tree before migrating.
- A check holds no lock. One that overlaps the first migration may read the journal before it, the old tree,
  and the new mode, and then lays the account's bucket over a shared one that per-account mode never reads;
  `PermissionOverlap.TornAllows` is an input. `PermissionOverlap.FirstMigrationOverlap` says that nothing else
  can go wrong, and `PermissionOverlap.SecondMigrationOverlap` that the second migration has no such case.
- `canonicalHttpOrigin` documents two schemes. Its table is a plain object, so the lookup also finds the
  property `constructor`, and that scheme is accepted with no default port
  (`Origin.InheritedSchemeIsAccepted`). The model has the same tables.
- Ids-only queries that all name no id land in no merged filter. They match nothing either, so routing is
  exact for them too (`QueryRouting.LandsOnce`, `QueryRouting.RoutingIsExact`).
- Author keys are joined by commas, so two author lists with commas inside may share a key without sharing an
  author, as two do in `QueryRouting.CommasShareAFilter`; `QueryGroups.TouchWithoutCommas` says that this is
  the only exception.
- Requests are keyed by origin, kind and id with a NUL between them, so two requests share a key only if they
  are the same one or an origin holds a NUL (`QueueLaws.KeysTell`, `QueueLaws.NulCollides`).
- Eviction with a negative cap never stops announcing (`DmEviction.ReentryEndsExactly`).
- A batch may charge up to one post-quantum key more than its budget, and one does
  (`SchemaSizes.AcceptedBatchIsBounded`, `SchemaSizes.OvershootIsReached`). It stays within if and only if every
  key still fitted when it was charged (`SchemaSizes.WithinBudgetExactly`).

## Conventions

- `now` is a parameter of every bunker event and constant within it. A nondecreasing clock is not required.
- Randomly generated secrets are parameters, like those a host chooses.
- In the bunker `requireSecret` is on. Relay URLs are taken in normal form. `Options.onCurve` is the curve
  check, an arbitrary predicate; a scanned client off the curve leaves its record confirmed and is not admitted.
- The bunker's MAC is ideal: it holds the key and the content it covers, and `BunkerRuns.Unforged` says that
  what verifies was exported. `Options.observed` says whether the host passed `onStateChange`; announcing
  exports, which sweeps.
- A JavaScript `Map` is a table of keys in insertion order and a Dafny map. Where the order of an iteration
  does not show, the loop takes any order.
- A lookup that fails reads as an empty bucket, record or thread, as `?? {}` and `?.` do in the source.
- The other plain objects the source keys by labels, accounts and permission keys are maps here: a key that names
  an inherited property of an object is a key like any other.
- An event kind is written in decimal. JavaScript writes integers from 10^21 on with an exponent.
- A host name is folded with the Kelvin sign as well as the letters, as `toLowerCase` does for ASCII results.
- A grant's id is a tuple of five strings in place of their JSON text. A request's destination is a function of
  its URL, as the parser makes it.
- The order of labels within one group, `localeCompare` in the source, is any order.

## Model

| member | source | states |
|---|---|---|
| `BunkerRestore.StepKeeps` | packages/identity/src/bunker/server.ts:285-317 | every event, restores included, keeps the counters, ceilings and binding invariants, and every event of one process only moves the state forward: records keep their confirmations, ids are not reused |
| `BunkerRuns.ReachableStates` | packages/identity/src/bunker/server.ts:285-317 | in every run from start-up whose restores leave half-bound secrets alone: connected clients stay within `maxClients` and secrets within `maxSecrets`; `pending`, `#pendingAdmissions` and `#pendingApprovals` equal the in-flight approvals they count; each connected client's secret is live, confirmed and its own; two connected clients never hold one secret |
| `BunkerRuns.OneSecretOneClient` | packages/identity/src/bunker/server.ts:1060-1134 | over any interleaving of connects, scans, answers, mints, lapses, revocations, disconnects and restores, all admissions through one secret record name the same client |
| `BunkerRuns.AdmissionConfirms` | packages/identity/src/bunker/server.ts:1079-1094 | an admission happens only while its own record is still the one stored under the secret, and leaves that record confirmed for the admitted client |
| `BunkerBindings.BindingIsReleased` | packages/identity/src/bunker/server.ts:1121-1134 | a record loses its client if and only if the approval being settled is its last one in flight, none was confirmed, and it is rejected or finds no room; no other event frees it |
| `BunkerBindings.ConnectTakesLiveSecrets` | packages/identity/src/bunker/server.ts:1060-1071 | `connect` reaches the handler only with a secret that has not lapsed and that no other client holds |
| `BunkerRuns.RevocationStrikes` | packages/identity/src/bunker/server.ts:340-354 | a revocation at once drops the secret and the client connected through it, spares every other client, and moves the generation on by one |
| `BunkerRuns.RevocationIsFinal` | packages/identity/src/bunker/server.ts:1080-1084 | an approval pending when its secret is revoked never admits anyone later in the run, even if the same string is minted, scanned or restored again |
| `BunkerRuns.GenerationStep` | packages/identity/src/bunker/server.ts:266-283 | the generation never decreases, restarts with the host's counter included; a revocation adds one, an export carries it, a restore accepts nothing behind it |
| `BunkerRuns.StaleStateIsRefused` | packages/identity/src/bunker/server.ts:425-430 | over any runs and restarts in which the host keeps its counter, a state exported before a revocation is refused after it |
| `BunkerRuns.RevokedStaysRevoked` | packages/identity/src/bunker/server.ts:395-430 | with an unforgeable MAC, whatever is restored after a revocation was exported after that revocation |
| `BunkerSweep.WalkTimely` | packages/identity/src/bunker/server.ts:602-618 | after a walk at time t, `#nextSweepAt` lies after t and at most at max(expiry, t + 1000) for every unclaimed secret left |
| `BunkerSweep.SweepIsFullScan` | packages/identity/src/bunker/server.ts:602-622 | once a second has passed since the last walk, the constant-time sweep leaves exactly the secrets a full scan would: no unclaimed secret past its expiry survives |
| `BunkerSweep.RunIsTimely` | packages/identity/src/bunker/server.ts:602-622 | the scheduling invariant the refinement needs holds in every reachable state, after mints, scans, unbindings and restores |
| `BunkerSweep.SweepReentryIsNoOp` | packages/identity/src/bunker/server.ts:617-647 | the sweep that a sweep's own announcement triggers through `exportState` changes nothing |
| `BunkerOwners.RelayOwnersAreExact` | packages/identity/src/bunker/server.ts:725-788 | in every reachable state between start and stop, a relay's owners are exactly the host, if it chose the relay, and the connected clients whose relay set contains it, and an unowned relay is not listened on |
| `BunkerRestore.RestoreIsAtomic` | packages/identity/src/bunker/server.ts:436-470 | a refused restore changes nothing; an accepted one leaves every client in memory and every binding that has not lapsed as it was, and leaves every client backed by its own secret if and only if it admitted none over a secret bound but unconfirmed in memory |
| `BunkerRoundTrip.ExportValidates` | packages/identity/src/bunker/server.ts:477-561 | validation accepts an exported state exactly when each secret and each client's relay set is within the limits and agrees with its secret's |
| `BunkerRoundTrip.ExportIsAccepted` | packages/identity/src/bunker/server.ts:395-451 | a fresh process with the same key, options and generation accepts an export if and only if the state is portable in that sense |
| `BunkerRoundTrip.RestoreUndoesExport` | packages/identity/src/bunker/server.ts:360-374 | it then holds the same clients and the same unlapsed secrets and bindings in the same order, up to the default life given to an unclaimed secret without one |
| `BunkerRoundTrip.ExportsAlike` | packages/identity/src/bunker/server.ts:360-374 | and its next export is the very same content, when the unclaimed secrets carry an expiry still ahead |
| `BunkerPortable.ReachableStatesRoundTrip` | packages/identity/src/bunker/server.ts:360-470 | in a run with bounded mints and scans, whose approved scans meet no `connect` in flight with other relays, and whose restores seat no client over a secret memory holds half bound or with other relays, every state reached is restored by a fresh process if and only if no secret it holds is bound to a key off the curve, and then comes back with the same clients and the same unlapsed secrets |
| `BunkerFirm.ScanNeedsCurve` | packages/identity/src/bunker/server.ts:658-681 | while a scan waits for its approval, the export is restored by a fresh process if and only if the rest of it is restorable and the scanned key is a point of the curve |
| `BunkerFirm.OffCurveApproval` | packages/identity/src/bunker/server.ts:698-707 | approving a scan by a key off the curve confirms its record and seats nobody |
| `BunkerFirm.ConfirmedStays` | packages/identity/src/bunker/server.ts:602-638 | a confirmed secret stays held by the same record, for the same client, through every event of its process but its own revocation |
| `BunkerFirm.OffCurveBlocksExports` | packages/identity/src/bunker/server.ts:497-525 | from such an approval until that secret is revoked, every export of the server is refused by every process |
| `BunkerFirm.OffCurveScan` | packages/identity/src/bunker/server.ts:658-707 | any server with room takes such a scan as its first event, and its exports are refused before the approval and after it |
| `BunkerWitnesses.ScanOverConnectIsRefused` | packages/identity/src/bunker/server.ts:703-707 | a run from start-up: a `connect` and a scan of another relay, both approved, and the export refused because the relays differ |
| `BunkerWitnesses.RestoreOverBoundIsRefused` | packages/identity/src/bunker/server.ts:442-450 | a run from start-up: two genuine exports restored one after the other, and the next export refused because the relays differ |
| `BunkerWitnesses.HalfBoundRestoreUnbacks` | packages/identity/src/bunker/server.ts:442-450 | a run from start-up: an export taken during an approval and one taken after it are both restored, and the client connected then is not backed by its secret |
| `BunkerWitnesses.TwoClientsOneSecret` | packages/identity/src/bunker/server.ts:602-618 | the same run continued: the secret lapses, is minted again, and a second client is connected over it beside the first |
| `BunkerPortable.ScanOverConnect` | packages/identity/src/bunker/server.ts:703-707 | a scan approved over a `connect` in flight on the same record replaces the relays that `connect` captured: the client's export restores if and only if the two relay sets agree |
| `BunkerPortable.RestoreOverBound` | packages/identity/src/bunker/server.ts:442-450 | a client restored over a secret already bound in memory takes the state's relays while the secret keeps memory's: its next export restores if and only if the two agree |
| `BunkerServer.Server.CreateBunkerUri` | packages/identity/src/bunker/server.ts:570-594 | minting acts on the maps and records in place as the machine's mint event, redisplay of a bound secret and the ceiling included |
| `BunkerServer.Server.Sweep` | packages/identity/src/bunker/server.ts:602-618 | the loop over `#secrets` deletes, reschedules and announces as the machine's sweep |
| `BunkerServer.Server.LiveSecret` | packages/identity/src/bunker/server.ts:629-638 | looks one secret up and drops it on the spot when it has lapsed |
| `BunkerServer.Server.AcceptNostrConnect` | packages/identity/src/bunker/server.ts:658-681 | a scan up to its handler call: refusals in order, binding, and the approval counted |
| `BunkerServer.Server.Connect` | packages/identity/src/bunker/server.ts:1060-1071 | `connect` up to its handler call |
| `BunkerServer.Server.Answer` | packages/identity/src/bunker/server.ts:682-707 | what either resumes with: rejection, revocation noticed by record identity, room checked again, or admission |
| `BunkerServer.Server.Bind` | packages/identity/src/bunker/server.ts:1104-1118 | binds the stored record, or a new one, to the client and counts one approval |
| `BunkerServer.Server.Unbind` | packages/identity/src/bunker/server.ts:1121-1134 | takes one approval off the record and frees it when nothing else holds it |
| `BunkerServer.Server.Admit` | packages/identity/src/bunker/server.ts:1137-1158 | seats the client and moves its relay ownership |
| `BunkerServer.Server.Claim` | packages/identity/src/bunker/server.ts:760-769 | adds an owner to a relay |
| `BunkerServer.Server.Release` | packages/identity/src/bunker/server.ts:772-788 | takes an owner off a relay, and the relay away with its last owner |
| `BunkerServer.Server.DisconnectClient` | packages/identity/src/bunker/server.ts:325-331 | forgets a client and releases its relays |
| `BunkerServer.Server.RevokeSecret` | packages/identity/src/bunker/server.ts:340-354 | drops the secret, its bound client and moves the generation |
| `BunkerServer.Server.ExportState` | packages/identity/src/bunker/server.ts:360-374 | sweeps, then writes out secrets and clients in order, signed |
| `BunkerServer.Server.ValidateState` | packages/identity/src/bunker/server.ts:477-561 | the two validation loops, first refusal first |
| `BunkerServer.Server.Restore` | packages/identity/src/bunker/server.ts:395-474 | judges everything, then sets secrets and admits clients without announcing, adopts the generation and announces once |
| `BunkerServer.Server.Start` | packages/identity/src/bunker/server.ts:726-732 | claims the host's relays |
| `BunkerServer.Server.Stop` | packages/identity/src/bunker/server.ts:735-755 | lets go of every relay, for good |
| `BunkerLaws.MintGivesLife` | packages/identity/src/bunker/server.ts:575-591 | a minted secret not held before is unbound, listens on the relays named or the host's, and expires at `now` plus the ttl given, or the default one; with a ttl of zero or less it never does |
| `BunkerLaws.MintedSecretsLapse` | packages/identity/src/bunker/server.ts:575-591 | a secret minted without a ttl under a default one and never presented is refused by every `connect` at or after the end of that life, in any run in which it is not minted, scanned or restored again |
| `BunkerLaws.MintAnswers` | packages/identity/src/bunker/server.ts:570-594 | a mint is refused only for a new secret when as many unlapsed ones are held as `maxSecrets`; a held one keeps its record, and only an unbound one takes the new relays |
| `BunkerLaws.ConnectAnswers` | packages/identity/src/bunker/server.ts:1060-1071 | what `connect` answers, over every state: bad request, unknown or lapsed secret, no seat, taken, or waiting, in that order |
| `BunkerLaws.ConnectLeaves` | packages/identity/src/bunker/server.ts:1104-1118 | a waiting `connect` has bound the record to its client and counted one approval on it, and has changed no other record |
| `BunkerLaws.ScanAnswers` | packages/identity/src/bunker/server.ts:658-681 | what a scan answers: bad request, no seat, no room for a new secret, taken, or waiting, in that order |
| `BunkerLaws.ScanLeaves` | packages/identity/src/bunker/server.ts:672-681 | a waiting scan has bound the known record, its relays untouched, or stored a new one on the scanned relays |
| `BunkerLaws.SettleAnswers` | packages/identity/src/bunker/server.ts:682-707 | what the handler's answer comes to: rejected, superseded record, no seat, a key off the curve, or admitted |
| `BunkerLaws.SettleLeaves` | packages/identity/src/bunker/server.ts:1079-1094 | every answer takes one approval off its own record and changes no other; an admission confirms the record, ends its expiry and seats the client on the approval's relays |
| `BunkerLaws.RefusalForgets` | packages/identity/src/bunker/server.ts:1121-1134 | a refused approval takes a scanned, unconfirmed secret with it when it was the last one pending, and no other secret that has not lapsed |
| `BunkerLaws.RevokeLeaves` | packages/identity/src/bunker/server.ts:340-354 | a revocation removes that secret, the client seated by it and what has lapsed; every other secret and client stays, and an unknown secret changes nothing |
| `BunkerLaws.DisconnectLeaves` | packages/identity/src/bunker/server.ts:325-331 | disconnecting removes that client alone and touches no record |
| `BunkerLaws.HostEvents` | packages/identity/src/bunker/server.ts:714-755 | adding a relay, starting, stopping for good, and a new process that keeps the generation alone |
| `BunkerRestoreLaws.RestoreAccepts` | packages/identity/src/bunker/server.ts:395-457 | a restore is accepted if and only if the state is genuine and this server's, no approval is pending, every record is sound by itself and beside the others, none clashes with a binding in memory, and there is room for all |
| `BunkerRestoreLaws.RestoreLeavesSecrets` | packages/identity/src/bunker/server.ts:440-466 | afterwards each listed secret that memory did not hold bound is held as listed, an unconfirmed one without expiry with the default life; what memory held bound or was not listed is untouched or has lapsed |
| `BunkerRestoreLaws.RestoreLeavesClients` | packages/identity/src/bunker/server.ts:452-470 | memory's clients stay as they were, each listed one not connected is seated on its own relays and time, and the generation is the state's, or zero for an old format |
| `BunkerRestoreLaws.ExportIs` | packages/identity/src/bunker/server.ts:360-374 | an export is signed over this key and generation and holds every unlapsed secret and every client, in order, field by field |
| `Scope.ReadIpv4` | packages/identity/src/permissions/scope.ts:44-70 | the loops over labels and bytes compute the address, refuse it, or find that the host is no number |
| `Scope.Ipv4Bounded` | packages/identity/src/permissions/scope.ts:62-68 | whatever is accepted is below 2^32, so no octet wraps |
| `Scope.QuadParses` | packages/identity/src/permissions/scope.ts:69 | reading the dotted quad printed for any 32-bit address gives that address |
| `Scope.LongestZeroRun` | packages/identity/src/permissions/scope.ts:114-124 | the nested loops find the run that is compressed |
| `Scope.BestRunIsFirstLongest` | packages/identity/src/permissions/scope.ts:113-124 | that run is the longest of at least two zero groups, and the first of those (RFC 5952 section 4.2) |
| `Scope.Print6Parses` | packages/identity/src/permissions/scope.ts:125-129 | reading the text printed for any eight 16-bit groups gives those groups |
| `Origin.Ipv6RoundTrip` | packages/identity/src/permissions/scope.ts:77-130 | equal groups print alike and different groups never do |
| `Origin.AddressesAreStable` | packages/identity/src/permissions/scope.ts:44-130 | whatever spelling of an IPv4 or IPv6 address is accepted, its printed form reads back as the same address |
| `Origin.ShowReads` | packages/identity/src/permissions/scope.ts:160-207 | parsing a printed origin gives back its scheme, host and port |
| `Origin.CanonicalIsIdempotent` | packages/identity/src/permissions/scope.ts:160-207 | canonicalising twice is canonicalising once, on every accepted text, for the HTTP and the WebSocket schemes |
| `Origin.SameCanonicalSameSite` | packages/identity/src/permissions/scope.ts:160-207 | two accepted spellings have one canonical form exactly when they name the same scheme, host and port |
| `Origin.InheritedSchemeIsAccepted` | packages/identity/src/permissions/scope.ts:160-166 | the scheme table's lookup also finds an inherited property, so `constructor://` before any host is accepted, and canonical as it stands |
| `Origin.ScopesAreStable` | packages/identity/src/permissions/scope.ts:247-256 | the label a rule is stored under is read under the same two labels, and a hostname falls back to nothing but itself |
| `OriginLaws.DefaultPorts` | packages/identity/src/permissions/scope.ts:22-31 | for every host: `https://h:443` is `https://h` and `https://h:80` itself, and the mirror images for http and 80, wss and 443, ws and 80 |
| `OriginLaws.AfterTheColon` | packages/identity/src/permissions/scope.ts:200-205 | whatever stands after a host's colon: one to five digits up to 65535 are its port, dropped when it is the default and otherwise written without leading zeros; anything else is refused |
| `OriginLaws.OtherPortsStay` | packages/identity/src/permissions/scope.ts:202-206 | every other port up to 65535 is kept, in decimal |
| `OriginLaws.DecimalIsPositional` | packages/identity/src/permissions/scope.ts:204 | a printed number has a digit for each power of ten, the highest first |
| `OriginLaws.OnlyTheseSchemes` | packages/identity/src/permissions/scope.ts:160-166 | what is accepted begins with `http://`, `https://` or the one inherited scheme, letter case aside |
| `OriginLaws.CaseDoesNotMatter` | packages/identity/src/permissions/scope.ts:163-193 | every text has the canonical form of its lowercase spelling |
| `OriginLaws.NotPlainRefused` | packages/identity/src/permissions/scope.ts:33 | credentials, a path, a query or a fragment are refused whatever surrounds them |
| `OriginLaws.NamesStay` | packages/identity/src/permissions/scope.ts:192-197 | a dotted name of lowercase letters, digits, `_` and `-` is its own spelling, a trailing dot included |
| `OriginLaws.OtherCharactersRefused` | packages/identity/src/permissions/scope.ts:192-193 | any other character in a name is refused, and so is an empty host |
| `OriginLaws.KelvinFolds` | packages/identity/src/permissions/scope.ts:192-193 | the Kelvin sign lowercases to a `k` |
| `OriginLaws.AddressSpellings` | packages/identity/src/permissions/scope.ts:44-70 | one to four numbers in decimal, `0x` hexadecimal or `0` octal, in any mixture, read as the address they name, the last filling the bytes left, or are refused |
| `OriginLaws.AddressOrigins` | packages/identity/src/permissions/scope.ts:44-70 | an origin so spelt has the four bytes in decimal as its canonical host |
| `OriginLaws.FullAddress` | packages/identity/src/permissions/scope.ts:109-112 | groups of one to four hexadecimal digits are an address by themselves exactly when there are eight |
| `OriginLaws.ShortAddress` | packages/identity/src/permissions/scope.ts:104-108 | with a double colon between them exactly when there are fewer than eight, the missing ones being zeros |
| `OriginLaws.LongGroupRefused` | packages/identity/src/permissions/scope.ts:95-97 | a group longer than four digits is refused |
| `OriginLaws.StrayColonRefused` | packages/identity/src/permissions/scope.ts:88-98 | a colon too many beside a double colon, or a second double colon, is refused |
| `OriginLaws.EndColonRefused` | packages/identity/src/permissions/scope.ts:88-98 | so is a colon at either end without one |
| `OriginLaws.DottedTail` | packages/identity/src/permissions/scope.ts:79-87 | a dotted quad at the end stands for its two groups, whatever comes before |
| `OriginLaws.OriginLabels` | packages/identity/src/permissions/scope.ts:247-256 | an origin with any port reads under its canonical form and then its bare host |
| `OriginLaws.RelayLabel` | packages/identity/src/permissions/scope.ts:24-31 | a `ws` or `wss` label reads under itself alone |
| `PermissionKey.ResolveDetailed` | packages/identity/src/permissions/key.ts:115-160 | the two searches over the consulted keys compute the specified answer, kind 22242 and missing kinds included |
| `PermissionKey.DenyWins` | packages/identity/src/permissions/key.ts:122-124 | the answer is `deny` exactly when some consulted level holds one |
| `PermissionKey.SameValuesSameDenials` | packages/identity/src/permissions/key.ts:115-160 | rewriting a bucket without changing values (absent read as `ask`) never adds or loses a refusal |
| `PermissionKey.SameAnswerExactly` | packages/identity/src/permissions/key.ts:156-159 | such a rewriting keeps the whole answer if and only if a refusal or the method decides it, or an allow is reached past the explicit asks before exactly when it is after |
| `PermissionLaws.EveryAnswer` | packages/identity/src/permissions/key.ts:115-160 | over every bucket, method and kind, by the literal keys that govern a request: the narrowest deny wins; failing that a `signEvent` of kind 22242 or of no integer kind asks, and the narrowest key stored answers anything else |
| `PermissionLaws.OneRule` | packages/identity/src/permissions/key.ts:53-86 | what a single stored rule answers: its decision for what it governs, except that it never allows kind 22242 or a missing kind |
| `PermissionLaws.SendMessagesAlone` | packages/identity/src/permissions/key.ts:61-64 | `sendMessages` alone allows the two encrypt methods, `signEvent` of kinds 4, 13, 14 and 1059, and the method of that name |
| `PermissionLaws.ReadMessagesAlone` | packages/identity/src/permissions/key.ts:63-65 | `readMessages` alone allows the two decrypt methods and the method of that name |
| `PermissionLaws.SignKindAlone` | packages/identity/src/permissions/key.ts:58-62 | `signEvent:n` alone allows `signEvent` of kind n, unless n is one of the four message kinds or 22242, and the method of that name |
| `PermissionLaws.BroadRulesAlone` | packages/identity/src/permissions/key.ts:78-86 | `signEvent` alone allows every integer kind but 22242; `*` alone everything but that and a missing kind |
| `PermissionLaws.NeverAllowed` | packages/identity/src/permissions/key.ts:127-155 | no bucket allows a `signEvent` of kind 22242 or of no integer kind |
| `PermissionLaws.EffectiveLayers` | packages/identity/src/permissions/store.ts:50-57 | the six layers of an origin in order: the account's rules for the origin, its rules for the host, the shared ones for each, the account's global ones, the shared global ones; the first that holds a key decides it |
| `PermissionLaws.LabelEffective` | packages/identity/src/permissions/store.ts:50-57 | the four layers of a caller that is no web origin |
| `PermissionLaws.OriginCheck` | packages/identity/src/permissions/store.ts:268-274 | which layers a check at an https origin reads in each mode, with its default port or without, and when it asks or throws instead |
| `PermissionLaws.LabelCheck` | packages/identity/src/permissions/store.ts:268-274 | the same for a label without a colon and for a relay's origin |
| `PermissionLaws.InheritedRules` | packages/identity/src/permissions/store.ts:783-793 | what each stored label holds after the first migration, key by key: the shared rules, the account's own, and an `ask` for the rest of what was shared |
| `PermissionLaws.SharedRulesAfter` | packages/identity/src/permissions/store.ts:809-819 | the global rules after the second: every shared key, an existing global rule as it was, else a deny if any label denied and an allow only if all that named it allowed; nothing shared is left anywhere else |
| `PermissionLaws.AccountRulesAfter` | packages/identity/src/permissions/store.ts:820-832 | an account's own rules stay under their label, and stay the same where nothing was settled |
| `PermissionLaws.AccountsAre` | packages/identity/src/permissions/store.ts:873-878 | the accounts a migration knows are those given and those stored |
| `PermissionLaws.MigratedStore` | packages/identity/src/permissions/store.ts:776-836 | the whole store after each migration; one already made changes nothing |
| `PermissionLaws.WritesAre` | packages/identity/src/permissions/store.ts:892-902 | the journal's writes in their order |
| `PermissionStore.ReadOriginBucket` | packages/identity/src/permissions/scope.ts:268-280 | the loop lays the exact origin's rules over its hostname's |
| `PermissionStore.InheritTree` | packages/identity/src/permissions/store.ts:776-797 | the rewriting loop builds the specified tree in either legacy mode |
| `PermissionStore.InheritanceIsExact` | packages/identity/src/permissions/store.ts:784-793 | the bucket every known account has afterwards, for every origin, stored or not |
| `PermissionStore.InheritanceKeepsValues` | packages/identity/src/permissions/store.ts:776-797 | every known account keeps its decision for every origin and key, absent read as `ask`, exact origins that fall back to a stored hostname included |
| `PermissionStore.InheritanceKeepsAnswers` | packages/identity/src/permissions/store.ts:784-793 | the exact condition under which the whole answer survives too |
| `PermissionStore.InheritanceNeverGrants` | packages/identity/src/permissions/store.ts:784-793 | whatever the first migration changes, it allows nothing that was not allowed |
| `PermissionStore.WildcardIsNarrowed` | packages/identity/src/permissions/store.ts:786-791 | an input where, in per-account mode, an account's wildcard allow turns into `ask` for a key only the shared bucket named |
| `PermissionStore.WriteHere` | packages/identity/src/permissions/store.ts:50-57 | what is written for one account under an exact label is the last word there |
| `PermissionStore.WriteElsewhere` | packages/identity/src/permissions/store.ts:50-57 | and changes no other account's or unrelated origin's effective bucket |
| `PermissionStore.LaterIsNoHostname` | packages/identity/src/permissions/store.ts:820 | in the processing order no label is the hostname of an earlier one, so no later write disturbs an earlier site |
| `PermissionStore.ConsolidationKeepsValues` | packages/identity/src/permissions/store.ts:800-836 | for every listed or stored origin, every known account and every key, the effective value is unchanged, absent read as `ask`, whatever the order within each group of labels |
| `PermissionStore.ConsolidationKeepsDenials` | packages/identity/src/permissions/store.ts:800-836 | a request is refused afterwards exactly when it was before |
| `PermissionStore.BothMigrationsKeepValues` | packages/identity/src/permissions/store.ts:776-836 | so is it through both migrations in a row from a legacy store |
| `PermissionMigration.CollectGlobals` | packages/identity/src/permissions/store.ts:809-819 | the merged shared rules: an existing one stands, else the most restrictive, in any order of sites |
| `PermissionMigration.SettleOne` | packages/identity/src/permissions/store.ts:821-831 | one account and site: exactly the differing keys are written |
| `PermissionMigration.ConsolidateTree` | packages/identity/src/permissions/store.ts:805-832 | the whole loop builds the specified tree |
| `PermissionMigration.ConsolidationKeepsAnswers` | packages/identity/src/permissions/store.ts:820-832 | the whole answer of a request survives consolidation if and only if a refusal or the method decides it, or an allow is reached past the keys present before exactly when past the keys kept; both sides read off the old tree |
| `PermissionMigration.AllowBecomesAsk` | packages/identity/src/permissions/store.ts:826 | an input where an allow turns into `ask` |
| `PermissionMigration.AskBecomesAllow` | packages/identity/src/permissions/store.ts:819-826 | an input where an explicit `ask` turns into an allow |
| `PermissionJournal.JournalIsCrashSafe` | packages/identity/src/permissions/store.ts:892-902 | however often and wherever finishing is interrupted, finishing again gives the store of one uninterrupted run; once the journal is gone the store is that one |
| `PermissionJournal.HalfWrittenNeverAnswers` | packages/identity/src/permissions/store.ts:931-936 | while the journal exists a check, its reads taken together, throws, or asks without reading the tree when no account is named |
| `PermissionJournal.InheritingKeepsDenials` | packages/identity/src/permissions/store.ts:776-797 | refusals are the same across the first migration with any number of crashes and retries in it |
| `PermissionJournal.GlobalizingKeepsDenials` | packages/identity/src/permissions/store.ts:800-836 | and across the second |
| `PermissionJournal.KnownAfterInheriting` | packages/identity/src/permissions/store.ts:873-878 | the accounts the second migration knows after the first: all of them in per-account mode, only the given ones in shared mode |
| `PermissionJournal.GlobalRulesKeepDenials` | packages/identity/src/permissions/store.ts:800-836 | both migrations in a row on the store: an account the second still knows, given by the host or kept in per-account mode, is denied exactly what it was |
| `PermissionUngiven.UngivenAnswers` | packages/identity/src/permissions/store.ts:805-832 | any other account is answered from its site's shared rules (in per-account mode from nothing) before, and from the merged shared rules of all sites after |
| `PermissionUngiven.UngivenDenials` | packages/identity/src/permissions/store.ts:809-819 | it is refused afterwards exactly where some site's shared rules deny a consulted key, so it loses no refusal, and gains none if and only if it had one or no site denies |
| `PermissionUngiven.UngivenGrants` | packages/identity/src/permissions/store.ts:809-819 | it is allowed afterwards exactly when no site denies and all sites that share the first shared key allow that; which of these allows are new, and when the whole answer stays, as equivalences over the old tree |
| `PermissionUngiven.UngivenIsGranted` | packages/identity/src/permissions/store.ts:785-807 | an input where, in shared mode, an account the host does not give is allowed at one site what only another had shared |
| `PermissionOverlap.AtOneMoment` | packages/identity/src/permissions/store.ts:269-274 | a check whose reads fall at one moment is the check of that moment |
| `PermissionOverlap.FirstMigrationOverlap` | packages/identity/src/permissions/store.ts:269-274 | a check of a known account that overlaps the first migration throws, answers as before or answers as after, unless it read the journal before, the tree before its write and the mode after; then it answers from the old tree with the account's bucket over the shared one |
| `PermissionOverlap.SecondMigrationOverlap` | packages/identity/src/permissions/store.ts:269-274 | a check that overlaps the second migration throws, answers as before or answers as after |
| `PermissionOverlap.TornAllows` | packages/identity/src/permissions/store.ts:915-936 | an input and reads where such a check allows what the store allows neither before nor after |
| `PermissionJournal.PermissionStorage.FinishMigration` | packages/identity/src/permissions/store.ts:892-902 | the writes one by one, any of which may fail |
| `PermissionJournal.PermissionStorage.MigrateToInheritance` | packages/identity/src/permissions/store.ts:776-797 | a completed call leaves the specified store for the accounts given or stored; one over an account it cannot name changes nothing; a failed one leaves a store from which the next goes on |
| `PermissionJournal.PermissionStorage.MigrateToGlobalRules` | packages/identity/src/permissions/store.ts:800-836 | the whole call, the first migration included: sites stored or listed, plain labels before exact origins, accounts given or stored, and the store after success, refusal or a failed write |
| `QueryBatcher.MergeFilters` | packages/sdk/src/relay/QueryBatcher.ts:325-425 | the merged filters and their query lists, class by class, as specified by membership and not by order |
| `QueryGroups.AddMultiKind` | packages/sdk/src/relay/QueryBatcher.ts:340-353 | a query joins the group with its author key or starts one |
| `QueryGroups.MergeOverlaps` | packages/sdk/src/relay/QueryBatcher.ts:374-396 | the fixpoint loop ends, one group fewer at each merge, with author sets pairwise disjoint and every group still one chain of linked queries |
| `QueryRouting.LandsOnce` | packages/sdk/src/relay/QueryBatcher.ts:398-422 | a query lands in exactly one merged filter, once, if and only if it is not an ids-only query in a batch naming no id at all |
| `QueryRouting.EmptyIdsLandNowhere` | packages/sdk/src/relay/QueryBatcher.ts:411-416 | an input whose queries land nowhere |
| `QueryRouting.EventCovered` | packages/sdk/src/relay/QueryBatcher.ts:325-425 | an event matching a query's own filter matches the merged filter the query landed in |
| `QueryRouting.OneMultiKindFilter` | packages/sdk/src/relay/QueryBatcher.ts:374-402 | no event matches two multi-kind filters |
| `QueryRouting.SharedFilterIffLinked` | packages/sdk/src/relay/QueryBatcher.ts:337-402 | two multi-kind queries share a filter exactly when a chain of overlapping author sets links them, whatever order they arrived in |
| `QueryGroups.TouchWithoutCommas` | packages/sdk/src/relay/QueryBatcher.ts:341-342 | for authors without commas, a link is a shared author and nothing else |
| `QueryRouting.CommasShareAFilter` | packages/sdk/src/relay/QueryBatcher.ts:341-346 | an input of two queries that share no author and, however the batch is merged, share a filter |
| `QueryRouting.RouteEvents` | packages/sdk/src/relay/QueryBatcher.ts:231-238 | the routing loops give each query the first copy of each matching event |
| `QueryRouting.RoutingIsExact` | packages/sdk/src/relay/QueryBatcher.ts:199-238 | if every merged filter is answered with exactly the store's matching events, in any order and repetition, each query receives each stored event matching its own filter once and nothing else |
| `QueryLaws.AnyReceivesAll` | packages/sdk/src/relay/QueryBatcher.ts:471-494 | a filter with no field receives every event that came |
| `QueryLaws.TimeWindow` | packages/sdk/src/relay/QueryBatcher.ts:475-476 | bounds on the time leave exactly the events from `since` to `until`, both included; zero or absent, they exclude nothing |
| `QueryLaws.ListsNarrow` | packages/sdk/src/relay/QueryBatcher.ts:472-474 | adding ids, kinds or authors leaves exactly the events that carry a listed one |
| `QueryLaws.TagsNarrow` | packages/sdk/src/relay/QueryBatcher.ts:478-491 | adding `#x` leaves exactly the events with a tag whose first entry is `x` and whose second is listed; other further fields and a limit leave everything |
| `QueryLaws.ReceivedInOrder` | packages/sdk/src/relay/QueryBatcher.ts:306-315 | events are received in the order they came, no id twice |
| `QueryLaws.SharedAuthorTogether` | packages/sdk/src/relay/QueryBatcher.ts:374-402 | two queries for kinds and authors that have an author in common are asked in one filter |
| `QueryLaws.SameKindTogether` | packages/sdk/src/relay/QueryBatcher.ts:354-365 | two limited queries for one kind and some authors are asked in one filter exactly when the kind is the same |
| `QueryLaws.IdsTogether` | packages/sdk/src/relay/QueryBatcher.ts:366-368 | two queries for ids alone are asked in one filter, if any such query names an id |
| `QueryLaws.OthersAlone` | packages/sdk/src/relay/QueryBatcher.ts:369-371 | a query of any other shape is asked by itself, unchanged |
| `QueryLaws.ShapesApart` | packages/sdk/src/relay/QueryBatcher.ts:340-371 | queries of different shapes are never asked together |
| `QueryLaws.SharedFilterIs` | packages/sdk/src/relay/QueryBatcher.ts:398-416 | a shared filter lists each kind and author, or each id, of the queries it stands for, once, and has no other field |
| `DmCache.IngestAgrees` | packages/dm/src/cache/store.ts:45-71 | ingesting keeps seen ids, threads, conversations and announcements in agreement |
| `DmCache.IngestedThread` | packages/dm/src/cache/store.ts:50-54 | the thread gains the message in its place and keeps the others |
| `DmEviction.FollowedUntouched` | packages/dm/src/cache/eviction.ts:81-82 | eviction changes no followed partner's thread |
| `DmEviction.ExactlyCapLeft` | packages/dm/src/cache/eviction.ts:89-123 | when over, exactly `cap` evictable messages are left |
| `DmEviction.NoneNewerDropped` | packages/dm/src/cache/eviction.ts:91-92 | no dropped message is newer than an evictable one that stays |
| `DmEviction.KeptAreNewest` | packages/dm/src/cache/eviction.ts:91-123 | the same said of the messages in the threads |
| `DmEviction.EvictAgrees` | packages/dm/src/cache/eviction.ts:105-138 | eviction keeps the structures in agreement, whatever the cap |
| `DmEviction.ReentryEndsExactly` | packages/dm/src/cache/index.ts:91-102 | eviction's re-entry through the conversation subscriber ends if and only if the cap is not negative |
| `DmSession.HydrateAgreesExactly` | packages/dm/src/cache/store.ts:90-115 | a session hydrated over whatever it holds agrees afterwards if and only if the threads it ends up with have distinct ids, no stored one is empty, and no message seen before is lost |
| `DmSession.FreshHydrationAgrees` | packages/dm/src/cache/store.ts:90-115 | so a fresh session agrees if and only if the stored ids are distinct and no stored thread is empty |
| `DmSession.RunAgrees` | packages/dm/src/cache/eviction.ts:68-141 | over any run of ingests, evictions and changes of the follow set, the structures agree |
| `DmSession.RunStaysWithinCap` | packages/dm/src/cache/index.ts:91-102 | in any run, after a new message and the eviction it sets off no more than the cap is evictable |
| `DmSession.Session.IngestMessage` | packages/dm/src/cache/store.ts:45-71 | the in-place form, the subscriber's eviction included |
| `DmSession.Session.EvictIfNeeded` | packages/dm/src/cache/eviction.ts:68-141 | the in-place form, which terminates through its own re-entry |
| `DmSession.Session.HydrateMessages` | packages/dm/src/cache/store.ts:90-115 | the in-place form, over a session with any contents, the subscriber included |
| `DmLaws.InboxIs` | packages/dm/src/cache/store.ts:57-70 | while the structures agree there is one conversation for each partner with a thread and for nobody else, with the newest time of the thread, the preview of its last message and its length, the newest first |
| `DmLaws.SummaryIs` | packages/dm/src/cache/store.ts:57-70 | the same of any threads, empty ones left out, conversations of one age in the order their threads were opened |
| `DmLaws.PreviewIs` | packages/dm/src/cache/store.ts:73-76 | words with any white space around and between them are previewed with single blanks, cut to 79 characters and an ellipsis beyond 80 |
| `DmLaws.PlainPreview` | packages/dm/src/cache/store.ts:73-76 | a content of at most 80 characters without white space is its own preview |
| `DmLaws.IngestLeaves` | packages/dm/src/cache/store.ts:45-56 | a message whose id some thread holds changes nothing; a new one stands in its partner's thread after all that are not later, and every other thread is as it was |
| `DmLaws.HydrateLeaves` | packages/dm/src/cache/store.ts:90-101 | a stored thread replaces its partner's, in order of time; the others stay; its ids count as seen |
| `DmLaws.NothingEvicted` | packages/dm/src/cache/eviction.ts:68-89 | before the follow set is known, and while no more messages are unprotected than the cap, eviction changes nothing |
| `DmLaws.EvictLeaves` | packages/dm/src/cache/eviction.ts:105-128 | what eviction leaves of a thread is the thread without some messages, in order |
| `Grants.ListRefinesMap` | packages/identity/src/permissions/authenticationGrants.ts:225-243 | the stored list answers every request as lookup in a map by account, site, protocol, endpoint and method, with the shared relay entry and the backend default |
| `Grants.SaveRefines` | packages/identity/src/permissions/authenticationGrants.ts:282-335 | a save of the list is the save of the map, which knows only the map: it stores, declines or throws alike, an allow being refused exactly when the request's own entry or the shared relay entry denies |
| `Grants.RevokeRefines` | packages/identity/src/permissions/authenticationGrants.ts:341-374 | a revocation removes exactly the entries its filter strikes |
| `Grants.RunRefines` | packages/identity/src/permissions/authenticationGrants.ts:282-374 | from an empty store, after any saves and revocations, ids are unique and the list is the map that evolves by itself under those operations |
| `Grants.DenyPersists` | packages/identity/src/permissions/authenticationGrants.ts:305-313 | a deny lasts through any saves until a revocation that strikes it |
| `Grants.DenyAnswers` | packages/identity/src/permissions/authenticationGrants.ts:231-236 | while it lasts the store answers deny and refuses an allow at every scope, the one for all connected sites included |
| `Grants.GrantStore.Decide` | packages/identity/src/permissions/authenticationGrants.ts:225-243 | the searches over the list compute the specified decision |
| `Grants.GrantStore.SaveGrant` | packages/identity/src/permissions/authenticationGrants.ts:282-335 | the list after a save, and every refusal |
| `Grants.GrantStore.RevokeGrants` | packages/identity/src/permissions/authenticationGrants.ts:341-375 | the list and the defaults after a revocation |
| `GrantLaws.OneRecord` | packages/identity/src/permissions/authenticationGrants.ts:147-175 | what any single stored record answers, older ones without a decision or a URL included |
| `GrantLaws.ManyRecords` | packages/identity/src/permissions/authenticationGrants.ts:231-236 | many records deny if one alone does, and allow if one alone does and none denies |
| `GrantLaws.RecordsBeforeDefault` | packages/identity/src/permissions/authenticationGrants.ts:225-243 | the records decide before the backend default |
| `GrantLaws.OneConsent` | packages/identity/src/permissions/authenticationGrants.ts:314-333 | a consent just saved answers exactly the request it was given for, from its site, or from every site for a shared relay |
| `GrantLaws.SaveAnswers` | packages/identity/src/permissions/authenticationGrants.ts:282-313 | which consents may be saved, for once, for a site or for all sites, and which are refused |
| `GrantLaws.SaveLeaves` | packages/identity/src/permissions/authenticationGrants.ts:314-333 | the record replaces the one with its identity and leaves the others in place |
| `GrantLaws.SameIdentity` | packages/identity/src/permissions/authenticationGrants.ts:193-196 | two consents have one identity when account, site, protocol and relay agree, or URL and method |
| `GrantLaws.DefaultAllows` | packages/identity/src/permissions/authenticationGrants.ts:237-243 | with no record, an opted-in account may authenticate a secure site to itself or to a service registered for it, and no other |
| `GrantLaws.DefaultRefuses` | packages/identity/src/permissions/authenticationGrants.ts:237-243 | a relay, a plain http site or any other spelling gets nothing by default |
| `GrantLaws.RevokeLeaves` | packages/identity/src/permissions/authenticationGrants.ts:341-374 | what revoking by account, by identity and altogether removes, and what becomes of the defaults; an empty field changes nothing |
| `GrantLaws.RevokeSite` | packages/identity/src/permissions/authenticationGrants.ts:355-371 | revoking an origin removes its records whatever the spelling and no other; revoking a host those of every origin on it |
| `GrantLaws.SharedStay` | packages/identity/src/permissions/authenticationGrants.ts:114-121 | the records shared by all sites are reached by `*` and by no site |
| `ApprovalQueue.StepKeeps` | packages/identity/src/signing/queue.ts:97-149 | every event keeps the per-origin prompt, per-origin and global caps, and changes nothing a caller was told |
| `ApprovalQueue.RunKeeps` | packages/identity/src/signing/queue.ts:97-198 | the caps and the bookkeeping hold in every interleaving |
| `ApprovalQueue.FirstSettlementWins` | packages/identity/src/signing/queue.ts:119-131 | a request's first outcome is its only one, and it waits under its key exactly until then |
| `ApprovalQueue.LateResultsAreDropped` | packages/identity/src/signing/queue.ts:119-131 | a late result or timer of a settled request changes nothing, a newer entry under its key included |
| `ApprovalQueue.RejectsExactly` | packages/identity/src/signing/queue.ts:155-198 | a rejection, account switch, origin cut-off or disposal fails exactly the waiting requests it selects, with its code |
| `ApprovalQueue.DisposeEmpties` | packages/identity/src/signing/queue.ts:182-185 | disposal leaves nothing waiting |
| `ApprovalQueue.Queue.TrackRequest` | packages/identity/src/signing/queue.ts:97-149 | the checks in order, and the new entry |
| `ApprovalQueue.Queue.SettleJob` | packages/identity/src/signing/queue.ts:119-131 | settles once, and takes out only its own entry |
| `ApprovalQueue.Queue.RejectWhere` | packages/identity/src/signing/queue.ts:193-198 | the snapshot, then each of it failed in turn |
| `QueueLaws.TrackAnswers` | packages/identity/src/signing/queue.ts:97-113 | what a request is told at once: shut down, already pending, too many for one of the three caps, or accepted, by counts of open requests |
| `QueueLaws.TrackLeaves` | packages/identity/src/signing/queue.ts:115-143 | a refused request leaves nothing, an accepted one itself, failed at once if its work throws |
| `QueueLaws.EveryOutcome` | packages/identity/src/signing/queue.ts:119-198 | for every event and every request: the outcome and the abort an open one is given, and that a settled one is given nothing |
| `QueueLaws.KeysTell` | packages/identity/src/signing/queue.ts:47-49 | origins without a NUL: two requests have one key exactly when they agree in origin, kind and id |
| `QueueLaws.NulCollides` | packages/identity/src/signing/queue.ts:47-49 | an input of two requests, one of whose origins holds a NUL, with one key |
| `JsonText.Utf8ByteLength` | packages/identity/src/signing/schema.ts:107-122 | the count equals the length of the UTF-8 encoding (RFC 3629 section 3), a lone surrogate encoded as U+FFFD |
| `JsonText.DecodeEncode` | packages/identity/src/signing/schema.ts:100-106 | that encoding loses nothing |
| `JsonText.WeightOfConcat` | packages/identity/src/signing/schema.ts:107-122 | byte counts add up wherever no surrogate pair is cut |
| `SchemaSizes.TagCountIsLower` | packages/identity/src/signing/schema.ts:232-244 | the running tag count stays below what the tags weigh as JSON |
| `SchemaSizes.CutOffsAreSafe` | packages/identity/src/signing/schema.ts:226-244 | neither cut-off fires on a template whose JSON is within the limit |
| `SchemaSizes.ValidateTemplate` | packages/identity/src/signing/schema.ts:223-256 | accepts exactly the well-shaped templates whose JSON is within the limit in UTF-8, with that size; a well-shaped one is refused only as too large |
| `SchemaSizes.ValidateEncryptScheme` | packages/identity/src/signing/schema.ts:276-288 | no options, or exactly a post-quantum key of the right length and alphabet |
| `SchemaSizes.ValidateParams` | packages/identity/src/signing/schema.ts:290-350 | accepts exactly sound params within the smaller of their own limit and the budget, and charges their measure, plus the key for post-quantum |
| `SchemaSizes.ValidateBatch` | packages/identity/src/signing/schema.ts:482-515 | accepts exactly when every item is sound, ids are distinct, and each measure fits what the items before it left |
| `SchemaSizes.AcceptedBatchIsBounded` | packages/identity/src/signing/schema.ts:490-514 | an accepted batch charges at most the budget plus one recipient's key, and at most the budget without post-quantum encryption |
| `SchemaSizes.WithinBudgetExactly` | packages/identity/src/signing/schema.ts:490-514 | an accepted batch stays within the budget if and only if every recipient's key still fitted when it was charged |
| `SchemaSizes.OvershootIsOneKey` | packages/identity/src/signing/schema.ts:314-323 | past the budget, the excess is due to one recipient's key charged after its plaintext fitted |
| `SchemaSizes.OvershootIsReached` | packages/identity/src/signing/schema.ts:314-323 | a batch that charges exactly the budget plus the key |
| `SizeLaws.UnitWeights` | packages/identity/src/signing/schema.ts:107-122 | one to three bytes a unit, four a surrogate pair |
| `SizeLaws.EventWeightIs` | packages/identity/src/signing/schema.ts:253-254 | the size of an event's JSON as a sum over its fields, escapes and punctuation |
| `SizeLaws.TemplateIs` | packages/identity/src/signing/schema.ts:223-249 | the shape of a template, with its limits as numbers: kinds to 65535, 10000 tags, 1024 values, 64 hex digits |
| `SizeLaws.EventIs` | packages/identity/src/signing/schema.ts:245-252 | the event read off it, field by field |
| `SizeLaws.ParamsTaken` | packages/identity/src/signing/schema.ts:290-350 | what each method takes and how much of it, alone and in a batch, with its limits as numbers |
| `SizeLaws.ChargeIs` | packages/identity/src/signing/schema.ts:314-350 | what a batch is charged for each method, 2092 more for a recipient's key |
| `SizeLaws.BatchIs` | packages/identity/src/signing/schema.ts:482-515 | a batch is accepted exactly when it has 1 to 64 items with ids of 1 to 256 characters, no two alike, each taken within what is left of 1048576 |
| `Padding.PaddingIsBounded` | packages/pq/src/envelope.ts:107-113 | padding never shortens, and adds less than 32 bytes or a quarter of the length |
| `Padding.PaddingIsMonotone` | packages/pq/src/envelope.ts:107-113 | a longer message never pads shorter |
| `Padding.PaddingIsFixed` | packages/pq/src/envelope.ts:107-113 | a padded length is its own padding |
| `Padding.UnpadUndoesPad` | packages/pq/src/envelope.ts:115-133 | unpadding undoes padding for every message of 1 to 65535 bytes |
| `Padding.UnpadAcceptsExactly` | packages/pq/src/envelope.ts:124-133 | what unpads to m is exactly pad's framing of m, filler bytes aside, at exactly pad's length |
| `Padding.PadBuffer` | packages/pq/src/envelope.ts:115-122 | the buffer as it is written, and the refusals |
| `PaddingLaws.PaddedLenIs` | packages/pq/src/envelope.ts:107-113 | the padded length is 32 up to 32, then the next multiple of 32 up to 256, then the next multiple of a quarter of the power of two below |
| `PaddingLaws.LeastIsOne` | packages/pq/src/envelope.ts:107-113 | such a next multiple is unique |
| `PaddingLaws.PadBytes` | packages/pq/src/envelope.ts:115-122 | every byte of a padded message: the length in two bytes, higher first, the message, zeros; and which messages are refused |
| `PaddingLaws.UnpadReads` | packages/pq/src/envelope.ts:124-133 | what is read back from any bytes |

## Left out

- BunkerRuns.ReachableStates: assumes careful restores for the clause that backs clients by their secrets, because the clause fails without them exactly as `BunkerRestore.RestoreIsAtomic` says; counters and ceilings need no such condition.
- BunkerRuns.OneSecretOneClient: says nothing across a restart, because records are new objects there; the generation lemmas cover what may come back.
- BunkerPortable.ReachableStatesRoundTrip: needs relay lists within `maxRelaysPerClient` and secrets within 256 characters, which minting does not check and restoring does; and leaves out the scans over a `connect` and the restores over a bound or half-bound secret, for which `BunkerPortable.ScanOverConnect`, `BunkerPortable.RestoreOverBound` and `BunkerRestore.RestoreIsAtomic` give the exact conditions.
- BunkerServer.Server.Answer: does not model the acknowledgement sent afterwards, nor the closing of a socket an `auth_url` opened.
- BunkerServer.Server.Start: claims relays without opening subscriptions.
- BunkerServer.Server.Admit: does not model conversation keys, the dedup window or awaiting the subscriptions.
- PermissionStore.ConsolidationKeepsValues: assumes that the origin's own label is listed or stored and that `_global` is not listed as an origin, because nothing is written for other labels.
- QueryRouting.RoutingIsExact: ignores `limit`, which a merged filter drops and a relay may apply to a filter left alone.
- DmSession.Session.HydrateMessages: on a session that is already watched, is modelled when the result agrees; eviction over structures that disagree is not modelled.
- DmSession.RunAgrees: takes the subscriber's re-entry as one eviction, which is what it comes to when the cap is not negative.
- ApprovalQueue.Queue.TrackRequest: has no timers or abort signal of its own; time-outs and results are events, and telling the work to stop is a flag.
- QueueLaws.TrackAnswers: assumes that no origin holds a NUL, because with one `QueueLaws.NulCollides` shows two different requests in each other's way.
- Padding.PaddingIsMonotone: does not model the 32-bit shift that wraps for lengths beyond 2^30; `pad` and `unpad` stay below 65536.
- Padding.UnpadAcceptsExactly: leaves the filler bytes free, because `unpad` does not read them.
- SchemaSizes.ValidateTemplate: does not say which refusal an ill-shaped template gets.
- SchemaSizes.ValidateBatch: starts at the items; the envelope's id, origin and time are not modelled, nor is the classification of ciphertexts, which does not affect their charge.
- `canonicalHostname` and the canonical identifiers of other caller kinds: easy beside `canonicalOrigin`.
- The older permission migrations, and the writes and clears of single rules: easy members beside the two modelled.
- PermissionOverlap.FirstMigrationOverlap: reads the tree from the store; a check that overlaps a migration and answers from a cached tree or flag is not modelled.
- Interleavings of store reads inside one lock-held permission or grant operation: each is one step, except the journal's writes.
- Sockets, subscriptions, reconnecting, publishing, request deduplication and the strangers' windows of the responder.
- `normalizeURL` and the refusal of invalid relay URLs.
- Optional secrets (`requireSecret` off), where admissions are bound to nothing.
- Progressive results, the collection window, single-query groups and error paths of the query batcher, and its own deduplication of identical queries.
- Conversation previews are cut by characters, not UTF-16 units; the rest of the conversation list is exact.
- Debounced persistence of messages, read cursors and the closing of sessions.
- Cryptography: HMAC, AEAD, ML-KEM, Schnorr, HKDF and scrypt.
- The signer's pipeline, vault, passkeys, recovery, wallet, media, WoT oracle and user interface.
