# Hub verification

Dafny models of the stateful and algorithmic parts of the hub, with proofs about them. The
table below says which lines of the source each member models. Code that changes state step by step is
a class or a method with loops, proved against a specification function; the properties are then lemmas
about that function, over every input or every run.

- **Gateway connection lifecycle** (`GatewayMachine`, `GatewaySafety`, `GatewayRuns`, `GatewayCutover`,
  `GatewayRegister`, `GatewayWitnesses`, `GatewayFields`, `GatewayHistory`, `Gateway`). A step is the
  stretch between two awaits, a callback or a timer; token replies, handshakes, closes and timers come in
  any order. What depends on the environment is an input of the step: whether the active host has a url,
  whether a token came, whether a handshake succeeded. The comment at gateway.svelte.ts:618-625 promises
  that `connected` never goes false during a successful cutover. That holds of every cutover called in a
  connected state, exactly unless the registered client is still shaking hands under the current
  generation (`MakeBeforeBreakExactly`); a reconnect leads there, because `wsConnect` drops the old client
  without clearing the flag. The run that fails supposes that the promise of `connect()` survives a
  dropped socket, which is up to the client library. And `wsConnect` without a url takes a new generation
  but leaves the registered client in place: exactly when that client's hello is awaited, the hello may
  then close it where it stands (`NeverAtRiskExactly`).
- **Configuration editing** (`Json`, `ConfigPatch`, `ConfigSharing`, `ConfigDirty`, `ConfigSchema`,
  `ConfigPaths`, `ConfigPathLaws`, `ConfigNames`, `ConfigResidue`). The merge patch and its redaction
  filter against the algorithm of section 2 of RFC 7396; the dirty paths and their names; get and set by
  path. The patch shares objects with the configuration being edited, so stripping it in place also strips
  the configuration: `ConfigSharing` and `ConfigResidue` say exactly what of it is lost, and when.
- **Exports** (`Crc32`, `Crc32Check`, `Zip`, `ZipWriter`, `Csv`, `Columns`). Each printer is undone by a
  reader written from its standard: APPNOTE.TXT sections 4.3.7, 4.3.12 and 4.3.16, RFC 4180 section 2; the
  table-driven CRC is the bitwise one of RFC 1952 section 8.
- **Migration runner** (`Migrations`, `MigrationRunner`). Any number of runners over one database, each
  with its own file list and a stale snapshot, an advisory lock, a check under the lock, and crashes.
- **Chat turns** (`TurnBranches`, `TurnProjection`, `TurnNormalize`). The flat projection of retry
  branches against a rewrite of whole turns.
- **Plugin flows** (`ReconcilePlan`, `ReconcileStore`, `ReconcileProofs`, `ReconcileConvergence`,
  `ReconcileTheorems`, `ReconcileLaws`, `ReconcileOverlap`, `ReconcileOwners`). The planner and the
  endpoint that carries its plan out. The comment at +server.ts:36-38 says plugin automations are not
  duplicated per member. The record of seeded templates is kept per profile, so a second member seeds the
  flows again (`SeededByBothExactly`, `SecondMemberSeedsAgain`). The record is read before the transaction
  and written after it, so calls of one member that overlap, or fail in between, may seed again as well:
  `CanSeedExactly` says when. A key is the two ids joined by a colon, so templates whose plugin ids hold
  colons may share one (`SameKeyExactly`). The groups of a plugin listed once are not duplicated as long
  as the transactions of an organisation do not interleave (`AloneKeepsOwners`); nothing keeps them from
  it, and two that both find no group of a plugin each create one (`OverlappingCallsOwnTwiceExactly`).
- **Architecture index** (`ReconIndex`, `ReconScan`, `ReconLog`, `ReconRuns`, `ReconRows`, `ReconPaths`,
  `LineOffsets`). The scan transaction, marks by hand, the candidates of a walk and the line table.
- **Organisation channels** (`OrgEvents`, `OrgRealtime`, `OrgStatus`, `OrgChannels`). Reference-counted
  realtime channels whose handler sets are shared between an entry and the closures of its subscriptions.
  A handler subscribed twice to one event is held once, and so is a status callback given twice to one
  channel; the first of the two to leave takes it (`PassingVisitIsHarmlessExactly`).
- **Module guard** (`Availability`, `RouteGuard`, `RouteLaws`). Over an arbitrary manifest, cyclic or not
  where the code allows it.
- **Plugin bridge** (`HostBridge`, `BridgeRuns`, `BridgePosts`). What was posted and called after any run
  of inputs, told from the inputs alone.

`dafny verify dfyconfig.toml` checks the whole project.

## Model

| member | source | states |
|---|---|---|
| `GatewayRuns.NoClientLeaks` | src/lib/services/gateway.svelte.ts:480-716 | In every reachable interleaving each client ever built is the registered one, is closed, or is the backup of a cutover whose handshake is unanswered. |
| `GatewayRuns.RegisterIsEmptyAtInstall` | src/lib/services/gateway.svelte.ts:493-535 | Whenever a connect's token lets it install its client, the register is empty, and the new client then fills it. |
| `GatewaySafety.NextKeepsInv` | src/lib/services/gateway.svelte.ts:302-730 | Every step keeps the invariant: no leak, what is suspended refers to real clients, and the register is empty while the newest connect waits for its token. |
| `GatewaySafety.InstallsIntoEmptyRegister` | src/lib/services/gateway.svelte.ts:514-535 | The key step: a current connect resuming from its token fetch finds no client registered. |
| `GatewayFields.FieldsExactly` | src/lib/services/gateway.svelte.ts:248-730 | Of every step: each field of the state afterwards, told by the kind of step and the branch conditions, and only one state has all of them so. |
| `GatewayHistory.FlagsExactly` | src/lib/services/gateway.svelte.ts:248-610 | At every point of a run, connected, the JWT block, the one-shot retry of a refused device and the like stand exactly when the latest step that wrote them set them. |
| `GatewayHistory.WindowExactly` | src/lib/services/gateway.svelte.ts:371-380 | The restart window is open for three minutes from the latest announcement, or until the connection is up. |
| `GatewayHistory.FirstRefusalRetries` | src/lib/services/gateway.svelte.ts:248-276 | Over runs: the first close of a registered client as refused, since the connection was last up, drops it, takes a fresh generation and, with a url, awaits exactly one more token. |
| `GatewayHistory.SecondRefusalHalts` | src/lib/services/gateway.svelte.ts:254-262 | Over runs: of two such closes without the connection up in between, the later one leaves nothing registered, the generation as it was and no token awaited that was not before. |
| `GatewayRuns.OvertakenNeverRegisters` | src/lib/services/gateway.svelte.ts:514-594 | An operation whose generation passed while it waited never registers a client, nor touches the connection flags or the generation, however much later it resumes. |
| `GatewayRuns.DisconnectIsFinal` | src/lib/services/gateway.svelte.ts:704-730 | After a disconnect no reply, callback, event, timer or cutover registers a client or sets connected until connect is called anew. |
| `GatewayCutover.MakeBeforeBreakExactly` | src/lib/services/gateway.svelte.ts:612-702 | From a reachable connected state a cutover can be called that succeeds although connected was false on the way, if and only if the registered client's hello is still awaited by a connect of the current generation. |
| `GatewayCutover.SettledCutoverKeepsConnected` | src/lib/services/gateway.svelte.ts:626-702 | A cutover called in any other state, also with nothing registered, and which succeeds, sees connected true at every state from call to return; it registers the backup, moves the active host and closes just the old client. |
| `GatewayWitnesses.CutoversMayBreak` | src/lib/services/gateway.svelte.ts:480-535 | Both kinds of connected states are reachable: one connect leads to the safe kind, a second connect to the other, since it drops the old client without clearing the flag. |
| `GatewayRuns.OneCutoverWins` | src/lib/services/gateway.svelte.ts:630-663 | Of all cutovers that captured one generation at most one succeeds. |
| `GatewayRuns.LosingCutoverClosesBackup` | src/lib/services/gateway.svelte.ts:641-653 | A cutover that does not succeed closes its backup and changes nothing else. |
| `GatewayRegister.NeverAtRiskExactly` | src/lib/services/gateway.svelte.ts:480-614 | A run never comes to a state that is at risk, if and only if none of its steps is a connect without a url that overtakes the awaited hello of the registered client. At risk means that, with no further such connect, a closed client can end up registered. |
| `GatewayRegister.AtRiskExactly` | src/lib/services/gateway.svelte.ts:480-545 | Step by step: from a reachable state that is not at risk a step leads to one exactly when it is such a connect, begun by a caller, by the eager timer or after a revalidation. |
| `GatewayRegister.RegisteredClientIsOpen` | src/lib/services/gateway.svelte.ts:480-614 | As long as no step of a run overtook the registered client, the registered client is open. |
| `GatewayWitnesses.RegisterMayBeAtRisk` | src/lib/services/gateway.svelte.ts:481-483 | A connect without a url puts a reachable state at risk whose client shakes hands, and leaves one alone whose client is up. |
| `Gateway.GatewayService.WsConnect` | src/lib/services/gateway.svelte.ts:480-512 | The stretch up to the token fetch: a fresh generation, the pending attempt cancelled, the old client closed and unregistered; the invariant holds after it. |
| `Gateway.GatewayService.ConnectTokenFetched` | src/lib/services/gateway.svelte.ts:513-537 | The stretch after the token: inert when overtaken, reschedules while armed, else builds, registers and connects one client; keeps the invariant. |
| `Gateway.GatewayService.ConnectHandshakeSettled` | src/lib/services/gateway.svelte.ts:539-610 | Both outcomes of the handshake with their fences; an overtaken success closes its own client. |
| `Gateway.GatewayService.ChannelRevalidated` | src/lib/services/gateway.svelte.ts:610-614 | After a failed handshake it connects again only when the lease moved and nothing newer began. |
| `Gateway.GatewayService.CutoverToHost` | src/lib/services/gateway.svelte.ts:626-632 | A cutover begins by capturing the register and the generation and changes neither. |
| `Gateway.GatewayService.CutoverTokenFetched` | src/lib/services/gateway.svelte.ts:633-640 | Builds a backup only if the captured client and generation still stand and a token came. |
| `Gateway.GatewayService.CutoverHandshakeSettled` | src/lib/services/gateway.svelte.ts:640-702 | Returns true exactly when the handshake succeeded and the guard before the swap held; then it swaps, else it closes the backup. |
| `Gateway.GatewayService.WsDisconnect` | src/lib/services/gateway.svelte.ts:704-730 | Nothing registered, nothing connected and no timer pending afterwards; the invariant holds. |
| `Gateway.GatewayService.HandleAuthFatalClose` | src/lib/services/gateway.svelte.ts:248-276 | Drops the client; connects once more the first time and sets the one-shot flag, only drops it the second time. `GatewayHistory` says over runs that one retry is all there is. |
| `Gateway.GatewayService.OnClose` | src/lib/services/gateway.svelte.ts:382-463 | The close callback: inert for a client that is not registered; otherwise marks the connection down and takes the JWT, auth-fatal or eager branch; keeps the invariant. |
| `Gateway.GatewayService.OnEvent` | src/lib/services/gateway.svelte.ts:371-380 | Events of a client that is not registered change nothing; a restart notice arms the window, a migration notice may begin a cutover. |
| `Gateway.GatewayService.JwtRetryTimerFired` | src/lib/services/gateway.svelte.ts:428-437 | The cooldown timer re-enables the JWT, drops the live client and connects; keeps the invariant. |
| `Gateway.GatewayService.EagerTimerFired` | src/lib/services/gateway.svelte.ts:458-462 | The pending attempt runs once and connects; keeps the invariant. |
| `Gateway.GatewayService.Swap` | src/lib/services/gateway.svelte.ts:655-701 | The swap: a fresh generation, the backup registered, the flags of a live connection, the old client closed last. |
| `ConfigPatch.PatchExact` | src/lib/utils/config-schema.ts:350-417 | Merging the stripped diff into the original (section 2 of RFC 7396) gives the edited configuration with each sentinel replaced by what the original holds there, if and only if the edit is patchable: added and replaced values hold no null, no object without a non-sentinel member, and no object was edited into an equal-looking array. |
| `ConfigPatch.WriteExact` | src/lib/utils/config-schema.ts:376-417 | Written where nothing was, a value arrives as meant exactly when it is writable. |
| `ConfigPatch.OverwriteExact` | src/lib/utils/config-schema.ts:397-417 | Likewise written over a value that is no object, where a sentinel keeps what was there. |
| `Json.DeepEqualExact` | src/lib/utils/config-schema.ts:447-465 | deepEqual is equality, but for an object in its first place of an array in its second. |
| `Json.DeepEqualIsAsymmetric` | src/lib/utils/config-schema.ts:451-463 | It accepts an empty object against an empty array, and not the reverse. |
| `ConfigDirty.PatchIffDirty` | src/lib/utils/config-schema.ts:361-403 | There is a patch exactly when deepEqual fails, and its top-level keys are the dirty ones. |
| `ConfigDirty.DirtyIsPrefixClosed` | src/lib/utils/config-schema.ts:315-341 | The dirty paths are closed under non-empty prefixes. |
| `ConfigSchema.ComputeDirtyPaths` | src/lib/utils/config-schema.ts:297-309 | Returns exactly the keys that are dirty paths of length one. |
| `ConfigSchema.ComputeDeepDirtyPaths` | src/lib/utils/config-schema.ts:315-341 | Returns exactly the names, keys joined by dots, of the paths through objects on both sides where deepEqual fails. |
| `ConfigNames.SameNameExactly` | src/lib/utils/config-schema.ts:323-323 | Two paths are reported under one name exactly when, but for empty keys in front, their keys have the same parts between dots. |
| `ConfigNames.NamesApart` | src/lib/utils/config-schema.ts:323-323 | So paths whose keys are not empty and hold no dots have names of their own. |
| `ConfigNames.NameParsesBack` | src/lib/utils/config-schema.ts:283-323 | The name of a path of plain keys parses back to it: what is reported dirty can be read and reset under its name. |
| `ConfigSchema.StripRedactedSentinels` | src/lib/utils/config-schema.ts:405-417 | Leaves the members without sentinels and without objects that end up empty, at every depth. |
| `ConfigSharing.Editor.DiffObjects` | src/lib/utils/config-schema.ts:361-403 | The patch as it is built, sharing with the edited configuration every object that was added or replaced; empty exactly when deepEqual holds. |
| `ConfigSharing.DiffSharedFits` | src/lib/utils/config-schema.ts:376-401 | Read through what it shares, that patch is the diff. |
| `ConfigSharing.StripInPlace` | src/lib/utils/config-schema.ts:405-417 | Stripping the patch in place leaves in it the stripped diff, and strips the shared objects of the configuration along with it. |
| `ConfigSharing.Editor.ComputePatch` | src/lib/utils/config-schema.ts:350-359 | The patch sent is the stripped diff, right exactly when the edit is patchable; and what is left of the edited configuration is stated in full. |
| `ConfigSharing.CurrentSurvivesExactly` | src/lib/utils/config-schema.ts:376-417 | The edited configuration is left as it was exactly when every object it hands over to the patch holds no sentinel and no empty object. |
| `ConfigResidue.LeafAfterPatch` | src/lib/utils/config-schema.ts:350-417 | In what is left of the configuration every value stands where it stood, but for the markers inside objects that are new to the original: exactly those are gone. |
| `ConfigResidue.ObjectAfterPatch` | src/lib/utils/config-schema.ts:405-417 | Every object is still one, but for those inside a new object that hold no value other than markers: exactly those are gone. |
| `ConfigSharing.SamePatchAgain` | src/lib/utils/config-schema.ts:350-417 | Computing the patch again from what is left of the configuration gives the same patch. |
| `ConfigPaths.ParseUndoesText` | src/lib/utils/config-schema.ts:283-289 | A path written from its plain keys as callers write it (`a.b[0]`, index keys in brackets or dotted), with or without a dot in front, parses back to those keys. |
| `ConfigPathLaws.DotJoins` | src/lib/utils/config-schema.ts:283-289 | Any two texts joined by a dot parse to the keys of the one and then those of the other. |
| `ConfigPathLaws.IndexIsKey` | src/lib/utils/config-schema.ts:286-286 | Anywhere in a text, a run of digits in brackets reads as that run behind a dot. |
| `ConfigPathLaws.PlainTextIsOneKey` | src/lib/utils/config-schema.ts:287-288 | A text with no dot and no such index is one key, and no key if it is empty; with the two laws before, this settles every text. |
| `ConfigPaths.SetThenGet` | src/lib/utils/config-schema.ts:250-277 | After a set at a non-empty path the path reads the value written; an absent value reads as absent. |
| `ConfigPaths.SetElsewhere` | src/lib/utils/config-schema.ts:250-277 | A path that is neither a prefix nor an extension of the path written reads as before, even where scalars on the way became containers. |
| `ConfigPathLaws.ContainersOnTheWay` | src/lib/utils/config-schema.ts:263-271 | On the way to the target a container keeps its kind and its other members; where there was none an array is made exactly when the next key is a non-empty run of the characters 0 to 9, and else an object. |
| `ConfigPathLaws.TargetMember` | src/lib/utils/config-schema.ts:272-277 | At the target the member is there exactly when the value is not absent, and is that value. |
| `ConfigPaths.ConfigDraft.DeepGet` | src/lib/utils/config-schema.ts:250-258 | Returns what stands at the parsed path. |
| `ConfigPaths.ConfigDraft.DeepSet` | src/lib/utils/config-schema.ts:260-277 | Leaves the draft written at the parsed path; a path without keys writes the member named undefined. |
| `ConfigPaths.ConfigDraft.DeepDelete` | src/lib/utils/config-schema.ts:279-281 | Makes a non-empty path read as absent. |
| `Crc32.Crc32` | src/lib/export/table-export.ts:80-84 | The table-driven loop computes the bit-at-a-time reflected CRC with polynomial 0xEDB88320 (section 8 of RFC 1952) of every byte sequence. |
| `Crc32.BuildTable` | src/lib/export/table-export.ts:71-79 | Entry n of the table is n shifted eight times. |
| `Crc32.ShiftOfXor` | src/lib/export/table-export.ts:75-75 | The shift step is linear over xor. |
| `Crc32.LookUpFeedsByte` | src/lib/export/table-export.ts:82-82 | One table look-up and xor feeds the eight bits of a byte. |
| `Crc32Check.CheckValue` | src/lib/export/table-export.ts:72-84 | The bit-at-a-time CRC of the ASCII digits 1 to 9 is 0xCBF43926, the published check value. |
| `Zip.MembersReadBack` | src/lib/export/table-export.ts:87-127 | A reader going from the end record to the directory to each local header recovers the members with their checksums, in order, within the field limits. It accepts only records without flags and stored without compression, whose version, time and date agree with the local header, and an end record of a single disk. |
| `ZipWriter.ArchiveReadBack` | src/lib/export/table-export.ts:87-127 | Read back and checked against their checksums, the archive's entries are exactly those given. |
| `ZipWriter.BuildZip` | src/lib/export/table-export.ts:87-127 | The buffer the loops fill is that archive, and reads back, by that strict reader, as the entries given when every number fits its field. |
| `ZipWriter.Records` | src/lib/export/table-export.ts:95-112 | The chunks and directory records the loop pushes, with the offset it runs up. |
| `ZipWriter.Concatenate` | src/lib/export/table-export.ts:118-126 | The parts are copied one behind another into a buffer of their total length. |
| `Csv.CsvExact` | src/lib/export/table-export.ts:18-24 | Read by section 2 of RFC 4180, line breaks only between records, the text gives back the rows of string cells exactly when there is a row and no row is empty. |
| `Csv.PlainExactly` | src/lib/export/table-export.ts:19-22 | A cell stands in the text as it is exactly when it holds no quote, comma, line feed or carriage return. |
| `Csv.EmptyTextExactly` | src/lib/export/table-export.ts:23-23 | Exactly the table without rows, the one of one empty row and the one of one empty cell print as the empty text. |
| `Csv.CsvInjective` | src/lib/export/table-export.ts:18-24 | Two different tables with non-empty rows never print alike. |
| `Columns.ColLetter` | src/lib/export/table-export.ts:30-39 | The letters of column n are a non-empty name that spreadsheets read as n + 1, in bijective base 26. |
| `Columns.ColumnNumberInjective` | src/lib/export/table-export.ts:30-39 | A column has one name only. |
| `Columns.CellRefsDistinct` | src/lib/export/table-export.ts:48-48 | Cell references are equal exactly for the same cell. |
| `Migrations.EachMigrationCommitsOnce` | scripts/db-migrate.ts:58-72 | With any number of runners, interleaved and crashing anywhere, each version's body commits at most once, and never when the ledger had it at first. |
| `Migrations.LedgerMatchesCommits` | scripts/db-migrate.ts:63-70 | The ledger is always what it was at first and the versions whose bodies committed. |
| `Migrations.FinishedMeansApplied` | scripts/db-migrate.ts:58-73 | A runner that finished left every version of its list in the ledger, for good; the number it reports is how many its first look lacked, whoever applied them. |
| `Migrations.FinishedCountsMissing` | scripts/db-migrate.ts:53-79 | The number a finished runner reports is counted against the ledger as it stood at the step of the run where that runner took its look. |
| `Migrations.RunnersExactly` | scripts/db-migrate.ts:47-57 | At any point of any run the runners there are those launched, each with the list of files it was launched with. |
| `Migrations.CommitsAreListed` | scripts/db-migrate.ts:58-71 | Whatever was committed, version and body, stands in the list of a runner. |
| `Migrations.TransactionsExclude` | scripts/db-migrate.ts:63-64 | Two runners are never inside their transactions together. |
| `Migrations.RecordNeverConflicts` | scripts/db-migrate.ts:65-69 | The insert after a body never meets its version in the ledger. |
| `Migrations.NobodyIsStuck` | scripts/db-migrate.ts:58-72 | A runner that has not stopped can move, or the holder of the lock it waits for can. |
| `Migrations.StepsRunOut` | scripts/db-migrate.ts:58-72 | Every step brings its runner nearer its end. |
| `Migrations.LedgerStaysDownwardClosed` | scripts/db-migrate.ts:47-72 | If every runner's list respects one order, a ledger downward closed in it stays so. |
| `Migrations.PrefixesRespect` | scripts/db-migrate.ts:47-49 | A sorted list of distinct versions respects its own order, and so does every prefix of it, as of an older build. |
| `Migrations.NextKeepsInv` | scripts/db-migrate.ts:53-72 | Every step of any runner keeps the invariant, and the ledger only grows. |
| `MigrationRunner.MigrationRunner.ReadLedger` | scripts/db-migrate.ts:54-57 | The snapshot is the ledger at that moment. |
| `MigrationRunner.MigrationRunner.Recheck` | scripts/db-migrate.ts:64-67 | Under the lock a version already in the ledger ends the transaction without its body. |
| `MigrationRunner.MigrationRunner.Lock` | scripts/db-migrate.ts:63-64 | Enters the transaction only when nobody holds the lock, and takes it. |
| `MigrationRunner.MigrationRunner.Apply` | scripts/db-migrate.ts:68-68 | A body that fails ends the runner and frees the lock, with ledger and commits as before. |
| `MigrationRunner.MigrationRunner.Record` | scripts/db-migrate.ts:69-69 | The row waits for the commit; a version already in the ledger would end the runner. |
| `MigrationRunner.MigrationRunner.ApplyFile` | scripts/db-migrate.ts:63-71 | One transaction undisturbed: the version is in the ledger afterwards unless its body failed, and its body ran only if it was not. |
| `MigrationRunner.MigrationRunner.Commit` | scripts/db-migrate.ts:63-71 | The body and its ledger row become visible together, or neither does; the lock is freed either way. |
| `MigrationRunner.MigrationRunner.Migrate` | scripts/db-migrate.ts:52-73 | Alone on the database a run applies exactly what is due, in order, up to the first body that fails. |
| `TurnProjection.ProjectionIsTurnwise` | src/lib/chat/response-tree.ts:46-80 | For distinct row keys and disjoint branches whose keys are user rows, the flat projection is: split into turns, drop later attempts of complete branches, put the turn of the attempt whose number the branch gives (the root's own when there is no such attempt) in the root's slot, flatten. |
| `TurnProjection.RootShowsActive` | src/lib/chat/response-tree.ts:54-72 | In the slot of a complete branch's root the projection shows the turn headed by the row whose key is `attempts[active]`, or the root's own when active is out of range, and goes on behind the root's turn. |
| `TurnProjection.AppliesExactly` | src/lib/chat/response-tree.ts:55-63 | A branch takes effect exactly when its root, its attempt of number active and all attempts are loaded rows. |
| `TurnProjection.IncompleteBranchChangesNothing` | src/lib/chat/response-tree.ts:54-63 | A branch with its root, active attempt or any attempt missing changes nothing, whatever the other branches are. |
| `TurnProjection.FlattenTurns` | src/lib/chat/response-tree.ts:39-43 | Splitting a transcript into turns loses and reorders nothing. |
| `TurnBranches.ProjectTurnBranches` | src/lib/chat/response-tree.ts:46-80 | The loops over branches, in any order, and over rows compute the projection that `ProjectionIsTurnwise` and `RootShowsActive` constrain. |
| `TurnBranches.VisitBranches` | src/lib/chat/response-tree.ts:50-72 | The hidden set and the replacements after the loop, for any order of the branches. |
| `TurnBranches.HideBranch` | src/lib/chat/response-tree.ts:64-69 | What one branch hides: the turns of its other attempts, and its root's when another attempt is active. |
| `TurnBranches.BuildIndex` | src/lib/chat/response-tree.ts:50-50 | The index of the last row of every key. |
| `TurnBranches.FindTurnEnd` | src/lib/chat/response-tree.ts:39-43 | The turn ends before the next user row. |
| `TurnNormalize.NormalizeTurnBranches` | src/lib/chat/response-tree.ts:11-37 | Keeps exactly the entries whose attempts include their root; kept attempts are distinct and non-empty in order of first occurrence, and the active one is brought into range. |
| `TurnNormalize.FirstTextsInOrder` | src/lib/chat/response-tree.ts:17-25 | The attempts kept stand in the order in which they first occur in the stored list. |
| `TurnNormalize.NormalizedApplies` | src/lib/chat/response-tree.ts:56-63 | A normalized branch takes effect exactly when all its attempts are loaded. |
| `ReconcilePlan.PlanReconcile` | src/lib/flows/reconcile-plan.ts:54-115 | The planner's loops compute the plan. |
| `ReconcilePlan.PlanGroup` | src/lib/flows/reconcile-plan.ts:67-86 | For one plugin: its group is found or planned, an out-of-date one updated, and its ungrouped flows are swept into it. |
| `ReconcilePlan.SeedUnseen` | src/lib/flows/reconcile-plan.ts:88-104 | For one plugin: a seed for every template whose key was neither recorded nor seeded, with the running set of keys. |
| `ReconcilePlan.FindReleases` | src/lib/flows/reconcile-plan.ts:107-112 | The groups whose plugin is gone; an empty plugin id does not count. |
| `ReconcileStore.OrgStore.Execute` | src/routes/api/flows/reconcile/+server.ts:59-90 | Carrying the plan out on the tables, row by row, gives the stated groups and flows. |
| `ReconcileStore.OrgStore.Transact` | src/routes/api/flows/reconcile/+server.ts:39-93 | The transaction: plans with the record read before it and carries the plan out on the rows. |
| `ReconcileStore.OrgStore.SaveRecord` | src/routes/api/flows/reconcile/+server.ts:95-97 | Writes back what was read and the keys seeded, over whatever the record has become, and nothing without a profile or without keys. |
| `ReconcileStore.OrgStore.Reconcile` | src/routes/api/flows/reconcile/+server.ts:30-97 | One call nothing comes between: read the record, run the transaction, write the record. |
| `ReconcileTheorems.ReconcileConverges` | src/lib/flows/reconcile-plan.ts:54-115 | Planning again with the same plugins never creates, moves or releases anything, and finds nothing at all to do exactly when entries of one plugin agree and the call could record its keys (the member has a profile) or had none to record. |
| `ReconcileConvergence.PluginIsUpToDate` | src/lib/flows/reconcile-plan.ts:66-77 | Afterwards every listed plugin has a group with its name and state, when entries of one plugin agree. |
| `ReconcileTheorems.RefResolves` | src/lib/flows/reconcile-plan.ts:67-77 | Every group reference resolves to a group that exists afterwards and is that plugin's. |
| `ReconcileTheorems.FlowsLandInTheirPluginsGroup` | src/lib/flows/reconcile-plan.ts:79-104 | Every seeded flow, and every flow that was moved, ends up in a group of its own plugin; all others are unchanged. |
| `ReconcileTheorems.UserGroupsUntouched` | src/lib/flows/reconcile-plan.ts:107-112 | Groups without a plugin are left alone. |
| `ReconcileLaws.OldGroupTold` | src/lib/flows/reconcile-plan.ts:66-112 | A group that was there: without a plugin it stays; with its plugin gone it is released under its name; the first of a listed plugin takes that plugin's name and state; any further one stays. |
| `ReconcileLaws.NewGroupTold` | src/routes/api/flows/reconcile/+server.ts:59-69 | A new group is that of a listed plugin that had none, named and switched as the plugin is, under the new id drawn for it. |
| `ReconcileLaws.OldFlowTold` | src/routes/api/flows/reconcile/+server.ts:72-76 | A flow that was there keeps everything but its group, and that too if it had one; it gets one exactly when it has none and comes from a listed plugin. |
| `ReconcileLaws.NewFlowTold` | src/routes/api/flows/reconcile/+server.ts:77-88 | A seeded flow has the name and content of a template of an enabled listed plugin, remembers plugin and template, and has the new id drawn for it. |
| `ReconcileLaws.SameKeyExactly` | src/lib/flows/reconcile-plan.ts:91-91 | Two templates go by one key exactly when they are one, or the id of one plugin goes on from the other's with a colon and takes the beginning of the template's id along; plugin ids without colons keep their keys apart. |
| `ReconcileProofs.SeedsGood` | src/lib/flows/reconcile-plan.ts:88-104 | No key is seeded twice in a plan, none that is recorded, and every template of an enabled plugin is recorded or seeded. |
| `ReconcileTheorems.SeededExactly` | src/lib/flows/reconcile-plan.ts:88-94 | A call seeds exactly the keys its enabled plugins offer and the member has no record of. |
| `ReconcileTheorems.NoKeySeededTwice` | src/lib/flows/reconcile-plan.ts:88-104 | Over any run of calls that do not overlap, and of edits, no key is seeded twice for one profile, nor one recorded before. |
| `ReconcileOverlap.CanSeedExactly` | src/routes/api/flows/reconcile/+server.ts:30-97 | With calls that overlap, fail, or serve several organisations: a key can be seeded for a profile, for the first time or once more, unless it is on the profile's record and no call under way read a record without it that it will act on or write back; and in no other case. |
| `ReconcileOverlap.SaveSettlesExactly` | src/routes/api/flows/reconcile/+server.ts:95-97 | Writing the record settles the keys a call seeded for good, exactly when every other call of the member under way is harmless to them. |
| `ReconcileOverlap.OverlappingCallsSeedTwiceExactly` | src/routes/api/flows/reconcile/+server.ts:30-93 | Two calls of one member under way at once seed a key twice exactly when both offer it and neither read it. |
| `ReconcileOverlap.AloneIsReconciled` | src/routes/api/flows/reconcile/+server.ts:30-97 | Begun, committed and saved without another step between, a call is the atomic one the other results speak of. |
| `ReconcileOwners.OwnersAfterCommit` | src/routes/api/flows/reconcile/+server.ts:39-93 | A transaction that commits leaves a plugin the groups it has then and does not release, and one more for each time the plugin is listed, if none was there when the rows were read. |
| `ReconcileOwners.SecondOwnerExactly` | src/routes/api/flows/reconcile/+server.ts:39-93 | So a plugin with at most one group gets a second one exactly when the call saw none and now finds one that it does not release, or lists the plugin more than once. |
| `ReconcileOwners.OverlappingCallsOwnTwiceExactly` | src/routes/api/flows/reconcile/+server.ts:36-69 | Two transactions under way in one organisation, both listing a plugin without a group, give it two groups exactly when neither saw one. |
| `ReconcileOwners.AloneKeepsOwners` | src/routes/api/flows/reconcile/+server.ts:39-93 | A transaction nothing comes between keeps the groups of a plugin it lists and creates some only when there was none. |
| `ReconcileTheorems.SeededByBothExactly` | src/routes/api/flows/reconcile/+server.ts:30-38 | Two calls seed the same key into one organisation exactly when both offer it, neither member had it recorded, and they are different members or the first has no profile. |
| `ReconcileTheorems.SecondMemberSeedsAgain` | src/routes/api/flows/reconcile/+server.ts:36-38 | A concrete organisation in which a second member doubles the flows. |
| `ReconcileTheorems.ReconcileKeepsOk` | src/routes/api/flows/reconcile/+server.ts:63-87 | Group and flow ids stay distinct and no group id looks like a temporary key. |
| `ReconScan.QuickEqualsRehashExactly` | scripts/architecture-recon-index.ts:708-814 | A quick scan leaves the same table and log as a full rehash exactly when every file whose size and time match its row still has the content it was hashed from. |
| `ReconScan.RescanLogsNothingExactly` | scripts/architecture-recon-index.ts:708-814 | After a scan, scanning the same tree again logs nothing exactly when the second scan is quick, the first was a rehash, or the first could trust its rows. |
| `ReconScan.ScanRows` | scripts/architecture-recon-index.ts:709-813 | A scan writes each candidate's row as its visit says, and marks any other row missing at most once. |
| `ReconLog.ScanLogsExactly` | scripts/architecture-recon-index.ts:663-815 | What a scan adds to the log of any one path: added, modified, missing or nothing, each once and exactly when due. |
| `ReconLog.ReturnsQuietlyExactly` | scripts/architecture-recon-index.ts:684-786 | A missing path that is found again is current again, and its return is logged nowhere exactly when its kind, its hash as the scan takes it, and its size are as stored; the modification time does not matter. |
| `ReconRuns.LastChangedIsLatestEntry` | scripts/architecture-recon-index.ts:753-783 | Over any run of scans, failed scans and marks, last_changed_run_id is the run of the path's latest added or modified entry, and a path has a row exactly when it has one. |
| `ReconRuns.ManualTagsSurvive` | scripts/architecture-recon-index.ts:688-691 | A level or parent of manual origin survives every scan and every other mark; `ReconRows` says of the marks themselves what they leave. |
| `ReconRows.MarkedLevelStays` | scripts/architecture-recon-index.ts:860-896 | Over any run: a level given by a mark of a path in the table is the level of its row after any later scans, failed scans and other marks, until a mark gives another. |
| `ReconRows.MarkedParentStays` | scripts/architecture-recon-index.ts:872-885 | So is a parent, or none, given by a mark while that parent was in the table. |
| `ReconRows.MarkedStatusStays` | scripts/architecture-recon-index.ts:692-695 | So is a review status, until a mark gives another or, for verified, a scan finds the artifact modified. |
| `ReconRows.RowsExactly` | scripts/architecture-recon-index.ts:663-896 | After any run the row of every path is told from the run's events: its facts from the scan that last found it, its tags from marks and candidates, its status from marks and modifications. |
| `ReconRuns.VerifiedUntilModified` | scripts/architecture-recon-index.ts:692-695 | A verified artifact stays verified exactly until a scan logs it as modified, and is then in review. |
| `ReconRuns.EveryParentIsPresent` | scripts/architecture-recon-index.ts:281-281 | At every point every parent is in the table, so no scan's commit trips over the deferred foreign key. |
| `ReconRuns.NextKeepsInv` | scripts/architecture-recon-index.ts:708-885 | Every scan, failed scan and mark keeps the table's invariant. |
| `ReconPaths.CandidatesAreClosed` | scripts/architecture-recon-index.ts:366-429 | A walk's candidates have distinct paths and include the parent of each. |
| `ReconPaths.CandidatesExactly` | scripts/architecture-recon-index.ts:229-248 | A candidate is listed exactly for each directory and each file: its kind, its level by how deep it lies, the directory that holds it as its parent, and a file's hash, size and time. |
| `ReconPaths.CollectDirectories` | scripts/architecture-recon-index.ts:366-408 | The directories listed are exactly the root and those above some file. |
| `ReconIndex.Index.RunScan` | scripts/architecture-recon-index.ts:708-814 | The transaction leaves the scanned table, and its counts agree with what it logged and cover every candidate. |
| `ReconIndex.Index.MarkArtifact` | scripts/architecture-recon-index.ts:860-896 | Refuses an unknown artifact whole, and an unknown parent after storing the status and the level. `ReconRows` says how long what it stores stays. |
| `ReconIndex.Index.VisitCandidate` | scripts/architecture-recon-index.ts:709-787 | One candidate: its row, its log entry and its count. |
| `ReconIndex.Index.SweepUnseen` | scripts/architecture-recon-index.ts:789-813 | Every row not seen in this run and not yet missing is marked and logged. |
| `ReconPaths.AddAncestors` | scripts/architecture-recon-index.ts:401-406 | Adds exactly the directories above the file. |
| `LineOffsets.FindLineOffsets` | scripts/architecture-recon-index.ts:451-457 | The offsets are those where lines start, in order. |
| `LineOffsets.LineForOffset` | scripts/architecture-recon-index.ts:459-468 | The bisection returns one more than the number of line feeds before the offset. |
| `OrgRealtime.ChannelExactlyWhileSubscribed` | src/lib/realtime/org-events.ts:91-140 | Over any run with handlers new to their event, an organisation has a channel in the map exactly while one of its subscriptions is live. |
| `OrgRealtime.EachChannelRemovedOnce` | src/lib/realtime/org-events.ts:99-106 | A channel is handed back once, when its entry closes, and never before. |
| `OrgRealtime.StaleUnsubscribeIsHarmless` | src/lib/realtime/org-events.ts:131-139 | Ending a subscription that was ended or cut off before touches no channel that is up. |
| `OrgRealtime.DeliveredExactly` | src/lib/realtime/org-events.ts:43-48 | An event reaches exactly the handlers of the live subscriptions to it; on a closed channel, nobody. |
| `OrgRealtime.DisconnectAllEndsAll` | src/lib/realtime/org-events.ts:172-178 | Disconnecting leaves no channel in the map and no subscription live. |
| `OrgRealtime.PassingVisitIsHarmlessExactly` | src/lib/realtime/org-events.ts:115-139 | Subscribing and at once unsubscribing leaves all others their events and the status changes they got, exactly when the handler was new to the event and the status callback, if any, new to the channel. |
| `OrgRealtime.ServedUntilEndedExactly` | src/lib/realtime/org-events.ts:115-140 | A new subscription leaves it so that all others get their events until they are ended, whatever happens, exactly when its handler is new to the event. |
| `OrgStatus.HeardUntilEndedExactly` | src/lib/realtime/org-events.ts:115-140 | After any run that uses no handler and no status callback twice: a new subscription leaves it so that all others get their events and their status changes until they are ended, whatever else so happens, exactly when its handler and its status callback, if any, are new. |
| `OrgStatus.StatusHeldExactly` | src/lib/realtime/org-events.ts:50-53 | Over such runs an open channel holds exactly the status callbacks of its live subscriptions. |
| `OrgEvents.IdleExactly` | src/lib/realtime/org-events.ts:99-101 | An open channel has nothing left exactly when it has no live subscription. |
| `OrgChannels.OrgChannelRegistry.SubscribeOrgBroadcast` | src/lib/realtime/org-events.ts:115-129 | Joins the organisation's one channel, made on demand; an empty organisation or event changes nothing. |
| `OrgChannels.OrgChannelRegistry.EnsureOrgChannel` | src/lib/realtime/org-events.ts:91-97 | One entry per organisation, made on demand. |
| `OrgChannels.OrgChannelRegistry.ReleaseOrgChannel` | src/lib/realtime/org-events.ts:99-106 | Closes and removes an idle entry that is still the organisation's, and touches nothing else. |
| `OrgChannels.OrgChannelRegistry.EndSubscription` | src/lib/realtime/org-events.ts:131-139 | The closure: removes its own handlers once and releases the channel when idle. |
| `OrgChannels.OrgChannelRegistry.DisconnectOrgRealtime` | src/lib/realtime/org-events.ts:172-178 | Cuts off every channel once, in some order. |
| `RouteGuard.IsKindRestricted` | src/lib/modules/route-guard.ts:30-38 | On any manifest, cyclic or not, it ends and holds exactly when a module with kinds is reachable through requirements. |
| `RouteGuard.Search` | src/lib/modules/route-guard.ts:31-38 | What the shared seen set means on the way: all ids it gained are explored, without kinds, unless the search succeeded. |
| `RouteGuard.UnresolvedFailsClosed` | src/lib/modules/route-guard.ts:57-62 | With the kind unresolved a path is blocked exactly when it is blocked for business or for personal, or its module is kind-restricted at all. |
| `RouteGuard.UnrestrictedIgnoresKind` | src/lib/modules/availability.ts:170-181 | Where no kind restriction is reachable, availability does not depend on the kind. |
| `RouteGuard.IsAppRouteBlocked` | src/lib/modules/route-guard.ts:57-62 | True exactly when the path has an owner and that is kind-restricted with the kind unresolved, or not available; `RouteLaws.BlockedExactly` says when that is, in terms of the manifest. |
| `RouteLaws.BlockedExactly` | src/lib/modules/route-guard.ts:57-62 | A path is blocked exactly when it has an owner from which requirements lead to a module that has kinds without the organisation's, or whose non-empty toggle is recorded as false; with the kind unresolved also when they lead to one with kinds at all. |
| `RouteLaws.AvailableExactly` | src/lib/modules/availability.ts:170-181 | A module is available exactly unless requirements lead from it to a module of other kinds only or to one switched off. |
| `RouteLaws.MatchesBySegments` | src/lib/modules/availability.ts:144-144 | A prefix matches a path exactly when the parts of the prefix between slashes are the first ones of the path's. |
| `Availability.ResolveModuleForPath` | src/lib/modules/availability.ts:138-151 | The owner is the module of a longest matching prefix, the first to declare it; none only when no prefix matches. |
| `Availability.OwnerIsDetermined` | src/lib/modules/availability.ts:138-151 | A path has at most one owner. |
| `Availability.OwnerIsUnique` | src/lib/modules/availability.ts:138-151 | When no two modules declare the same prefix, the owner does not depend on the manifest's order. |
| `BridgeRuns.ChannelPostsExactly` | src/lib/plugins/bridge-protocol.ts:181-203 | No theme (or locale) is posted before the first accepted ready signal; then the last one sent before goes out, and after it every one sent since, once each and in order. |
| `BridgeRuns.LatestIsPostedLast` | src/lib/plugins/bridge-protocol.ts:181-203 | Once the plugin is ready, the last theme (or locale) posted is the latest sent. |
| `BridgeRuns.HellosPostedExactly` | src/lib/plugins/bridge-protocol.ts:102-179 | A hello goes out at every ready signal and at every hello sent to a ready plugin, always the latest, none before the first signal. |
| `BridgePosts.PostsExactly` | src/lib/plugins/bridge-protocol.ts:59-237 | Everything ever posted, in order, told from the inputs alone: at each input the messages due and where they are addressed. |
| `BridgePosts.CallsExactly` | src/lib/plugins/bridge-protocol.ts:92-142 | Everything ever called: which handlers a message reaches, in order and with what, and that of a sandboxed plugin only what its window sent counts, of another only what came from its origin. |
| `BridgeRuns.ReadyHandlersCalledOnce` | src/lib/plugins/bridge-protocol.ts:102-216 | Every ready handler is called exactly once, in order of registration, whether registered before the signal or after. |
| `BridgeRuns.SaveIdsDistinct` | src/lib/plugins/bridge-protocol.ts:232-237 | No two save requests of a bridge share an id, whatever the clock says. |
| `BridgeRuns.RepliesAddUp` | src/lib/plugins/bridge-protocol.ts:122-152 | For every id, replies posted and requests still waiting add up to the requests accepted. |
| `HostBridge.BridgeHost.Handle` | src/lib/plugins/bridge-protocol.ts:92-142 | The message handler, by kind of message. |
| `HostBridge.BridgeHost.SendThemeChange` | src/lib/plugins/bridge-protocol.ts:181-191 | Holds the latest theme and posts it at once when ready. |
| `HostBridge.BridgeHost.SendLocaleChange` | src/lib/plugins/bridge-protocol.ts:193-203 | Holds the latest locale and posts it at once when ready. |
| `HostBridge.BridgeHost.SendHelloOnReady` | src/lib/plugins/bridge-protocol.ts:162-179 | Keeps the hello for every ready signal and posts it at once when ready. |
| `HostBridge.BridgeHost.OnPluginReady` | src/lib/plugins/bridge-protocol.ts:213-216 | Calls the handler at once when ready, else keeps it. |
| `HostBridge.BridgeHost.ReplyRpc` | src/lib/plugins/bridge-protocol.ts:144-152 | Posts one response for one waiting request. |
| `HostBridge.BridgeHost.AskToSave` | src/lib/plugins/bridge-protocol.ts:232-237 | Posts and returns the next save id. |

## Left out

- Gateway: `GatewayClient`'s own reconnect and backoff, the RPC payloads, polling, toasts, colours, binary wiring and saved hosts; tokens, handshakes, closes, timers and the clock are inputs of a step.
- Gateway: `handleEvent` and `revalidateChannel` beyond their effect on the lifecycle; a close reason is the two patterns it matches; the pending eager attempt is a flag, since every attempt makes the same call.
- Json: `undefined` members, prototype keys and array lengths; an array is a container with index keys, so holes and the `length` a delete leaves behind are not captured.
- ConfigPatch: sentinels inside arrays stay as they are in the patch and in the configuration meant.
- ConfigSharing: objects the configuration shares with itself or with the original; it is a tree, and a part of it is known by its position.
- ConfigPaths.ConfigDraft.DeepSet: the draft is a tree; a container written is not shared with the caller.
- Config fields, groups, hints and `hasConfiguredValues`: single-branch logic.
- Exports: `String` of number cells, XLSX XML text and UTF-8 encoding; names and cells are given as bytes and strings.
- Zip.MembersReadBack: archives beyond the 16- and 32-bit fields, whose numbers the writer truncates as the source does.
- Migrations: creating the ledger table, the text of migration bodies, a body that itself writes the ledger, and the guard that skips builds outside production.
- TurnBranches: fields of rows besides key and role.
- ReconcilePlan: `createdAt`, which the planner does not read; nodes and edges are one opaque content.
- ReconcileOverlap: the statements of one transaction one by one; it reads its rows in one step and writes and commits in another, on rows in a stable order, and random ids are given with it.
- Recon: repository, language and update times; source evidence (symbols, imports, endpoints, contracts); `localeCompare`, so directories come in any order; a hash is what hashing the file would give, and never empty.
- OrgEvents: the authorisation round trip and status values; handlers that subscribe or unsubscribe while they are being called.
- Availability.Available: needs a manifest without cycles of requirements, as the source's recursion does.
- HostBridge: `dispose`, payloads of the four fan-out messages beyond one body, and handlers that call back into the bridge.
- Stock valuation repair, flow editing and route access policies: would only add easier members.
