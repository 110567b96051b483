# AdminHelper: what its hardest parts promise, proved

Dafny models of four parts of the AdminHelper repository and of its roadmap script, with
proofs over every input, run or interleaving.

- **Root renewal of the ca-issuer** (Certificates, PkiDirectory, Rotation, Renewal*, Refusals,
  PkiVolume, IssuerBoot, BootTheorems, RootsHandedOut, Believed, ClientPaths, FinishLock). Staging, aborting,
  switching and finishing a root renewal and rotating the intermediates are sequences of
  atomic file operations over one directory that may stop after any of them; the phase is
  read back from the files alone. One invariant holds after every prefix of every command.
  From it follow: a stopped switch or finish is ended by running it again, the classifier
  never meets files it rejects and no command is refused for them, the boot accepts what an
  ended command left, no leaf loses its trust early and none that should not is believed,
  a root given up is handed out no more, clients find a valid path through and after a
  renewal, and the lock before a finish tells the right certificates apart. PkiVolume is the commands in
  their own imperative form, each proved to perform exactly a prefix of its plan.
- **The certificate register** (RegisterTables, Register*, TokenStores, Store*).
  Enrollment, renewal, take-over and revocation as transactions that interleave at every
  statement, with the identity lock, the token row, the line row and roll-back; and the two
  token stores, each proved to implement one register and so indistinguishable, with whom
  that register admits over every sequence of calls.
- **Alerting** (CheckEngine, AlertRuns, AlertBundles, Bell, Maintenance, Calendar). Damping, recovery
  hold and sent-state under concurrent dispatchers and bundle claims; conservation of
  members when silent agents are bundled; maintenance windows.
- **Template sync** (TemplateChecks, TemplateSync, MonitorService). Definitions, user
  overrides and tombstones reconciled into checks, and the scheduler's job table as an
  index of the check table.
- **The roadmap file** (Roadmap*). RoadmapText, RoadmapCells, RoadmapHeader and RoadmapFile
  are its grammar: rows and cells, IDs, days, status words, keys and the header line, each
  written and read back. RoadmapRows, RoadmapItems, RoadmapHeadings, RoadmapCellsWritten and
  RoadmapLife say what lint and prune see, what the verbs write and what a row goes through; RoadmapVerbs is the file under
  edit, and RoadmapWrite carries a text through a verb to the next text and its lint.

`dafny verify dfyconfig.toml` checks everything. Times are integers (microseconds, days or
minutes), keys and fingerprints numbers, a signature check the equality of key numbers.

Where the code does not meet what its documentation says, the code is modelled and the
exact condition is proved:

- A start of the ca-issuer reads root.crt a second time for its inventory
  (apps/ca-issuer/app/inventory.py:43). A switch between the two reads makes the process
  of the old root count as one of the new. FinishLock.SignedSinceTells holds for starts
  without that; UnquietStartIsMistaken shows that any other start that writes its row
  breaks it.
- The comment at apps/ca-issuer/app/cli.py:446-450 allows for a certificate taken over in
  the second of the start; SignedSinceTells states that this is the only exception.
- The server stamps a revocation with the start of its transaction
  (apps/server/app/core/time.py:44), taken before the lock, so of two concurrent
  revocations the later one may move the point back. RevokedIdentityGainsNothing holds for
  runs in which none does; MovedBackReadmits and MovedBackReadmitsToken show what any other
  allows, MovedBackHappens that it occurs. Everything else about the register holds without
  that condition.
- A check that falls from critical to warning is shown to the bell at the worse of both and
  recorded at the better (apps/monitoring/app/alerter.py:425-476), so its all-clear goes out
  a level below its alarm. Bell.AllClearAtTheAlarmsLevel states when the levels agree,
  ClearedBelowItsAlarm that this is the one other case.
- The roadmap's add asks whether an open row has the Dedup-Key it is given; the row is found
  by the first key its source cell names (scripts/dev/roadmap.py:789-800). A source text
  with a key of its own or a key with a pipe makes them differ, and an owner with an empty
  ID is overlooked. RoadmapCells.KeyReadBack and RoadmapItems.NamelessOwnerIsOverlooked say
  exactly when that is; RoadmapWrite.RoadmapOnDisk.Write, that the file is clean exactly if
  the key that will be read is free; GivenKeyMisleads and NamelessOwnerHappens give inputs.
- An edit may move a check to a server that has one of the same definition
  (apps/monitoring/app/routers/checks.py:286-297). MonitorService.Monitoring.EditCheck keeps
  at most one check per definition exactly if it does not; MovedCheckClashes is such a move.
  The jobs stay the index of the checks then too, but a sync writes only one of the two, and
  when their definition is gone it takes a sync for each (TemplateSync.OnlyOneFollows,
  SyncIdempotent).
- A weekly window longer than its API limit may be missed on its third day
  (Maintenance.TwoDaysExactly).

## Model

| member | source | states |
|---|---|---|
| Certificates.BuildRootIsProper | apps/ca-issuer/app/pki.py:163-188 | a built root passes the root check, is valid from its whole second on and lives ten years in whole seconds |
| Certificates.BuildIntermediateIsProper | apps/ca-issuer/app/pki.py:259-295 | an intermediate built under a valid root passes the check for its scope and never outlives that root |
| Certificates.BuildCrossIsProper | apps/ca-issuer/app/pki.py:191-221 | the cross certificate carries the new root's name and key, verifies under the old root, and ends with whichever of the two ends first |
| Certificates.SignedLeafNests | apps/ca-issuer/app/pki.py:402-463 | a signed leaf begins and ends inside its intermediate, which is what keeps an earlier leaf verifiable; it carries the subject and key asked for and can sign nothing itself |
| Certificates.NotAfter | apps/ca-issuer/app/pki.py:130-143 | the end of a new certificate is at most its life away and at most the issuer's end, and is refused outside the issuer's validity |
| Rotation.Unexpired | apps/ca-issuer/app/rotation.py:535-569 | keeps exactly the entries before their end |
| Rotation.SortedUnique | apps/ca-issuer/app/rotation.py:535-569 | newest first, each certificate once, none lost and none added |
| Rotation.RetiredAfter | apps/ca-issuer/app/rotation.py:535-569 | the next retired file holds the replaced intermediate and every earlier entry not yet expired, newest first and once each, or refuses an entry no known root signed |
| Rotation.RetiredUnder | apps/ca-issuer/app/rotation.py:572-590 | a finish keeps exactly the entries signed by the new root and refuses one neither root signed |
| RenewalCuts.WriteScopeCuts | apps/ca-issuer/app/rotation.py:429-440 | the four file operations of one scope, cut anywhere, keep the invariant of every reachable directory |
| RenewalCuts.PutRetiredKeepsInv | apps/ca-issuer/app/rotation.py:429-440 | writing the retired file first loses no unexpired generation |
| RenewalCuts.PutCrtKeepsInv | apps/ca-issuer/app/rotation.py:429-440 | the new intermediate goes in only after its key and after the one it replaces is in the retired file |
| RenewalCommands.RotationCuts | apps/ca-issuer/app/rotation.py:89-125 | a rotation cut after any file operation leaves a directory that satisfies the invariant; run to its end it is coherent and in the phase it began in |
| RenewalCommands.StageCuts | apps/ca-issuer/app/rotation.py:128-151 | a staging cut anywhere keeps the invariant; run to its end the directory is staged under the root it had |
| RenewalCommands.AbortCuts | apps/ca-issuer/app/rotation.py:154-168 | an abort cut anywhere keeps the invariant; run to its end no renewal and nothing staged is left, under the root it had |
| RenewalSwitch.HeadCuts | apps/ca-issuer/app/rotation.py:275-284 | record, retired root and cross certificate go on disk before anything moves, each cut of them recoverable |
| RenewalSwitch.MovesCuts | apps/ca-issuer/app/rotation.py:262-289 | every scope moves under the new root on its own; a scope already moved by a stopped run is left alone |
| RenewalSwitch.TailCuts | apps/ca-issuer/app/rotation.py:290-296 | key, certificate and the removal of the staged pair, in this order, each cut still classified as switching until the last |
| RenewalFinish.SwitchCuts | apps/ca-issuer/app/rotation.py:200-296 | every cut of a whole switch keeps the invariant, and run to its end it is switched with every scope settled under the new root |
| RenewalFinish.FinishCuts | apps/ca-issuer/app/rotation.py:299-328 | every cut of a finish keeps the invariant; run to its end there is no renewal, under the same root |
| RenewalFinish.FinishIsPlanned | apps/ca-issuer/app/rotation.py:572-590 | in phase switched or finishing a finish never meets an entry it does not recognise |
| RenewalTheorems.FreshSatisfiesInv | apps/ca-issuer/app/storage.py:127-199 | a hierarchy as the first start creates it satisfies the invariant |
| RenewalTheorems.RunKeepsInv | apps/ca-issuer/app/rotation.py:68-328 | one command of any kind, at any later time, refused, cut anywhere or run to its end, keeps the invariant |
| RenewalTheorems.RunAllKeepsInv | apps/ca-issuer/app/rotation.py:68-328 | so does every sequence of commands |
| RenewalTheorems.NeverRejected | apps/ca-issuer/app/root_rollover.py:98-144 | in no run of commands from a fresh hierarchy, each cut anywhere, does the phase classifier meet files it rejects |
| RenewalTheorems.OnlySwitchEndsASwitch | apps/ca-issuer/app/rotation.py:335-351 | a directory in phase switching is changed by no command but switch |
| RenewalTheorems.OnlyFinishEndsAFinish | apps/ca-issuer/app/rotation.py:335-351 | a directory in phase finishing is changed by no command but finish |
| RenewalTheorems.SwitchIsPlanned | apps/ca-issuer/app/rotation.py:200-273 | with the right passphrases and both roots valid a switch is never refused, however often it was stopped |
| RenewalTheorems.StoppedSwitchEnds | apps/ca-issuer/app/rotation.py:171-296 | a switch cut after any file operation any number of times and run again ends switched: new root and key in place, every scope settled, old root retired, cross certificate present exactly if asked for; at every stop both roots are at hand and the old key is overwritten only once the cross certificate is on disk or none is wanted |
| RenewalTheorems.StagedIsUnderway | apps/ca-issuer/app/root_rollover.py:98-123 | every staged directory is one the previous statement applies to |
| RenewalTheorems.StoppedFinishEnds | apps/ca-issuer/app/rotation.py:299-328 | a finish cut anywhere, with rotations between the attempts, is ended by running it again, is never refused, and leaves neither the old root, the cross certificate nor anything the old root signed |
| RenewalTheorems.StoppedFinishStays | apps/ca-issuer/app/root_rollover.py:124-144 | a finish cut anywhere stays in phase switched or finishing under the same root |
| RenewalTheorems.RotationStays | apps/ca-issuer/app/rotation.py:89-125 | a rotation between two attempts of a finish does not change the phase |
| Refusals.RefusedExactly | apps/ca-issuer/app/rotation.py:89-328 | in every reachable world a command is refused exactly if it comes in the wrong phase, a passphrase it needs is wrong or missing, a root it signs with is not valid, a rerun asks for other options, or the new root would bear the old one's name: no file a stop left behind ever stands in its way |
| Refusals.RotationRefusedExactly | apps/ca-issuer/app/rotation.py:89-101 | a rotation needs only no step of a renewal half done, the passphrase of root.key.enc and a valid root; the retired files and the clock never refuse it |
| Refusals.SwitchRefusedExactly | apps/ca-issuer/app/rotation.py:200-273 | a switch needs a staged or half switched root, its passphrase, the recorded options, the new root valid and, while the cross certificate asked for is not on disk, the old root valid and its passphrase |
| PkiVolume.Volume.Write | apps/ca-issuer/app/rotation.py:606-633 | one replacement or removal is atomic; when the process is stopped nothing more is written |
| PkiVolume.Volume.RotateIntermediates | apps/ca-issuer/app/rotation.py:89-125 | the command as it runs, stopped after any number of operations, leaves exactly that prefix of its plan, or refuses and changes nothing |
| PkiVolume.Volume.StageRoot | apps/ca-issuer/app/rotation.py:128-151 | the same for stage |
| PkiVolume.Volume.AbortRoot | apps/ca-issuer/app/rotation.py:154-168 | the same for abort |
| PkiVolume.Volume.SwitchToNext | apps/ca-issuer/app/rotation.py:200-296 | the same for switch, including a continued one |
| PkiVolume.Volume.FinishRoot | apps/ca-issuer/app/rotation.py:299-328 | the same for finish |
| PkiVolume.PlanAll | apps/ca-issuer/app/rotation.py:89-101 | all scopes are planned before a file changes, and the first refusal in scope order stands |
| PkiVolume.PlanMoves | apps/ca-issuer/app/rotation.py:262-273 | the loop over the scopes plans exactly those not yet moved, and the chains of those that are |
| IssuerBoot.Loadable | apps/ca-issuer/app/storage.py:359-397 | of the retired file the boot keeps exactly the unexpired entries a known root signed for the scope, without the current one |
| BootTheorems.BootAccepts | apps/ca-issuer/app/storage.py:200-277 | once the last rotation or switch ran to its end, the boot accepts the directory in phase none, staged and switched while its certificates are valid |
| BootTheorems.GenerationIsLoaded | apps/ca-issuer/app/storage.py:359-397 | every unexpired generation not given up is loaded, as the current intermediate or a retired one |
| BootTheorems.EarlierLeavesVerify | apps/ca-issuer/app/issuer.py:57-100 | a leaf up to its end, signed by any such generation, verifies at an issuer started any time since, before that end |
| BootTheorems.EveryRunKeepsLeaves | apps/ca-issuer/app/issuer.py:57-100 | for a scope no command that takes effect names compromised, whatever was current at some point of a run signed leaves that verify to their end after any later rotations, switches, cuts and restarts; only a finish that takes effect and moves away from its root ends that |
| BootTheorems.CompromisedUnderOldRootIsRefused | apps/ca-issuer/app/storage.py:287-326 | after a switch a scope given up neither uses nor trusts an intermediate under the old root |
| RootsHandedOut.RetiredRootHandedOut | apps/ca-issuer/app/storage.py:287-326 | after any run, every scope hands out the retired root exactly if it has not ended and no switch or rotation while it was the old root named a scope compromised |
| RootsHandedOut.CededRootNeverReturns | apps/ca-issuer/app/rotation.py:105-125 | once such a command has taken effect, however early it was stopped after that, no start after any later run hands the old root out again |
| RenewalEffects.RotationLeaves | apps/ca-issuer/app/rotation.py:89-125 | a rotation that has written anything, cut anywhere, leaves roots, keys and cross certificate as they were, and a record there is with the scopes it names added |
| RenewalEffects.SwitchLeaves | apps/ca-issuer/app/rotation.py:200-296 | a switch that has written anything, cut anywhere, leaves both roots known and a record of the scopes it names |
| RenewalEffects.FinishLeaves | apps/ca-issuer/app/rotation.py:299-328 | a finish cut anywhere leaves exactly the files of that prefix: the retired files purged one by one, then cross certificate, old root and record gone |
| Believed.OnlyStandingSignersBelieved | apps/ca-issuer/app/issuer.py:57-100 | after any run an issuer believes a leaf for a scope only if it is within its dates and was signed with the key of an intermediate issued for that scope in the run, not given up since, valid at the start and, unless current, still valid, and under root.crt or the retired root |
| Believed.OthersAreNotBelieved | apps/ca-issuer/app/issuer.py:57-100 | no leaf of another scope's intermediate is believed, whatever it claims |
| Believed.ForgeriesAreNotBelieved | apps/ca-issuer/app/issuer.py:57-100 | no leaf signed with a key that no issued intermediate has is believed |
| Believed.EarlierGenerationsAreOut | apps/ca-issuer/app/rotation.py:89-125 | once a rotation naming a scope compromised ran to its end, no leaf of an earlier intermediate of that scope is believed again, after any later run |
| ClientPaths.ProvisionedLeaf | apps/ca-issuer/app/storage.py:541-633 | what the gateway presents after a start is a leaf of its domain valid now, signed by the current intermediate, with its key and the certificates that go with it; what lies there is kept exactly if it is such a leaf with more than half its life ahead |
| ClientPaths.BootedAccess | apps/ca-issuer/app/storage.py:287-326 | after a start the gateway's intermediate is under root.crt, the staged root is in the roots handed out, and the cross certificate is presented while the old root is valid |
| ClientPaths.RootHolderReaches | apps/ca-issuer/app/storage.py:594-631 | a client that trusts root.crt builds a valid path by section 6.1 of RFC 5280 at every start |
| ClientPaths.OldRootHolderReaches | apps/ca-issuer/app/pki.py:191-221 | a client that trusts only the retired root builds one through the cross certificate, within its path length (section 4.2.1.9 of RFC 5280) |
| ClientPaths.RootsNeverReturn | apps/ca-issuer/app/rotation.py:128-151 | no root is ever used a second time, so neither is its key |
| ClientPaths.ChainHolderReaches | apps/ca-issuer/app/issuer.py:122-129 | a client holding any chain handed out reaches the gateway at every later start, across repeated renewals with stops and aborts; one handed out since the stage does so through switch and finish up to the switch after, unless an abort of that very root takes effect before it was switched to |
| ClientPaths.OldClientReaches | apps/ca-issuer/app/storage.py:636-681 | a client holding only the old root reaches it at every start before the finish, while that root is valid and the cross certificate was made |
| FinishLock.NewestRow | apps/ca-issuer/app/cli.py:491-501 | the row of a line with the latest notBefore |
| FinishLock.QueryRegister | apps/ca-issuer/app/cli.py:483-534 | the loop yields the newest certificate of exactly the lines that are not revoked, whose identity is not revoked as of it, and that are still valid |
| FinishLock.StepKeepsInv | apps/ca-issuer/app/inventory.py:63-87 | the recorded start under a root is its first one and survives later restarts; what earlier processes signed lies before it |
| FinishLock.SignedSinceTells | apps/ca-issuer/app/cli.py:441-454 | with one issuer process at a time on one clock and no switch during a start, signed_since holds of every certificate signed under the new root and of no other, but for one taken over into the register in the very second of the start |
| FinishLock.LockedFinishStrandsNobody | apps/ca-issuer/app/cli.py:390-427 | a finish the lock lets through leaves no device that still gets in (its line open, its identity not revoked as of its newest certificate, that one not ended) on a certificate of the old root, with the same one exception |
| FinishLock.NothingLeftToTakeOver | apps/ca-issuer/app/cli.py:407-418 | nor does it leave a certificate of the old root the register has not seen: from then on none is taken over |
| FinishLock.RenewedDevicesLetFinishThrough | apps/ca-issuer/app/cli.py:390-427 | and the lock does let it through once every device that still gets in has renewed at the new process |
| FinishLock.UnquietStartIsMistaken | apps/ca-issuer/app/inventory.py:43-45 | the condition cannot be dropped: a switch between loading the hierarchy and recording it makes the old root's process pass as new, in every state |
| FinishLock.UnquietStartHappens | apps/ca-issuer/app/main.py:125-127 | a run in which that happens |
| FinishLock.TakenOverInTheSecondHappens | apps/ca-issuer/app/cli.py:446-450 | a run in which the exception happens |
| RegisterTables.EnrollmentOk | apps/ca-issuer/app/db.py:212-267 | the rows of an enrollment keep every recorded certificate on one line of its own subject and scope, and every line on one first certificate |
| RegisterTables.RenewalOk | apps/ca-issuer/app/db.py:284-383 | so do the rows of a renewal, with or without a take-over |
| RegisterTables.LineIsATree | apps/ca-issuer/app/db.py:365-383 | from every certificate of a line renewed_from leads, on the line, to the one it was opened with, and no other of the line has no predecessor |
| RegisterRuns.StepKeepsInv | apps/ca-issuer/app/db.py:129-142 | every statement of every transaction, at any lock point of the others, keeps the tables consistent and the transactions apart |
| RegisterRuns.RenewalNeverConflicts | apps/ca-issuer/app/db.py:329-333 | under the identity lock no renewal meets a certificate recorded meanwhile, so the IntegrityError branch is never taken |
| RegisterRuns.RevokedTablesOk | apps/server/app/modules/enrollment/models.py:111-135 | a revocation under the lock has seen every open line of its identity |
| RegisterTheorems.RevokedIdentityGainsNothing | apps/ca-issuer/app/db.py:385-398 | in every interleaving, whatever is recorded later for an identity rests on something its revocation leaves active |
| RegisterTheorems.RevokedAsOf | apps/ca-issuer/app/db.py:212-333 | once an identity is revoked as of a time, no certificate is recorded as successor of one issued at or before it, nor for a token minted at or before it, nor taken over |
| RegisterTheorems.RevokedLineGainsNothing | apps/ca-issuer/app/db.py:300-320 | a revoked line never gains a certificate |
| RegisterTheorems.OpenLinesAreNewer | apps/ca-issuer/app/db.py:129-135 | no line escapes a revocation: an open line of a revoked identity was opened on something newer |
| RegisterTheorems.MovedBackReadmits | apps/server/app/modules/enrollment/models.py:124-130 | the condition that a revocation never moves back cannot be dropped: in every state, after any that does, an unrecorded certificate in between is taken over again while the transition window is open |
| RegisterTheorems.MovedBackReadmitsToken | apps/server/app/modules/enrollment/models.py:124-130 | and a token minted in between, refused before, yields a certificate, with no window needed |
| RegisterTheorems.MovedBackHappens | apps/server/app/core/time.py:44-44 | a run from the empty register in which that happens: revocations stamped 3 and 10, the earlier one committed last, and a token of time 5 |
| RegisterTheorems.OneCertificatePerToken | apps/ca-issuer/app/db.py:179-205 | each token yields at most one certificate, and is spent then |
| RegisterTheorems.FailedSigningSpendsNothing | apps/ca-issuer/app/db.py:215-231 | a failed signing, like any roll-back, writes nothing and leaves the token usable at once |
| RegisterTheorems.RecordedOnItsOwnLine | apps/ca-issuer/app/db.py:233-245 | every recorded certificate is on one line of its own subject and scope and descends from the line's first one; the line is legacy exactly if that first one was not enrolled with a token |
| RegisterTheorems.EnrollmentRevokesAtMostOne | apps/ca-issuer/app/db.py:247-267 | an enrollment revokes at most one existing line, the one it names, and only of the grant's own identity |
| TokenStores.InMemoryTokenStore.Enroll | apps/ca-issuer/app/tokens.py:212-241 | the in-memory enrollment is the register's: pop, check, sign, put back on failure, record, retire the replaced line |
| TokenStores.InMemoryTokenStore.Renew | apps/ca-issuer/app/tokens.py:254-291 | the in-memory renewal is the register's, a take-over recorded only with its successor |
| TokenStores.InMemoryTokenStore.Consume | apps/ca-issuer/app/tokens.py:203-210 | popping also an expired entry is a consume of the register |
| TokenStores.DbTokenStore.Enroll | apps/ca-issuer/app/db.py:212-245 | the transaction is the same register's enrollment, rolled back when signing fails or the certificate is already recorded; its tables and answer are those TableEnroll names |
| TokenStores.DbTokenStore.Renew | apps/ca-issuer/app/db.py:284-333 | the transaction is the same register's renewal, refused if the successor is already recorded or is the certificate itself, and every refusal leaves the tables as they were; its tables and answer are those TableRenew names |
| TokenStores.DbTokenStore.Consume | apps/ca-issuer/app/db.py:207-210 | the conditional update is the register's consume |
| TokenStores.DbTokenStore.LineOf | apps/ca-issuer/app/db.py:269-282 | the join gives the line of a recorded certificate, and nothing for an unrecorded one |
| TokenStores.EnrolledBook | apps/ca-issuer/app/db.py:212-267 | the rows one transaction writes, read as a register, are one enrollment of it |
| StoreRuns.RunBoth | apps/ca-issuer/app/db.py:172-404 | driven side by side through any sequence of calls with a monotone clock and fresh names, both stores give the same replies, line_of included |
| StoreRuns.SpentTokenGrantsNothing | apps/ca-issuer/app/tokens.py:114-129 | a spent token is refused by every later call to the end of the run |
| StoreTheorems.RevokedLineIsClosed | apps/ca-issuer/app/db.py:300-320 | in every sequence of calls a line once revoked keeps its reason and gains no certificate |
| StoreTheorems.ShownRevokedStaysRefused | apps/ca-issuer/app/tokens.py:254-291 | once line_of shows a line revoked, every later renewal of one of its certificates is refused, and line_of shows no certificate on it that was not there |
| StoreTheorems.RenewedExactly | apps/ca-issuer/app/tokens.py:254-291 | a renewal goes through exactly if signing works, the identity is not revoked as of the certificate, and its line is open and of that identity or it is unrecorded, older than the register and inside the window; the successor is on that line with that line's kind and nothing else changes |
| StoreTheorems.EnrolledExactly | apps/ca-issuer/app/db.py:212-267 | an enrollment goes through exactly with a token minted, unspent, unexpired and newer than a revocation of its identity; the certificate is on a new line of the token's identity and kind, and of the other lines at most the one named, of the same identity, is revoked |
| StoreTheorems.DeprovisionedIsRefused | apps/ca-issuer/app/db.py:385-398 | a deprovisioned identity enrolls with no token and renews no certificate from at or before that point until deprovisioned again, and the spent token is gone |
| StoreInRegister.RenewIsARun | apps/ca-issuer/app/db.py:284-333 | a renewal of the database store is a run of the register's statements from lock to commit or roll-back, so what holds in every interleaving holds of it |
| StoreInRegister.EnrollIsARun | apps/ca-issuer/app/db.py:212-245 | so is an enrollment |
| StoreInRegister.MintedTokenEnrolls | apps/ca-issuer/app/db.py:212-245 | a fresh token of an identity not revoked since its minting does enroll: one certificate on an open line of that identity, and the token is spent |
| CheckEngine.MonitorState.ApplyResult | apps/monitoring/app/check_engine.py:177-313 | one result moves the row as the damping, the hold and the sent-state decide |
| CheckEngine.MonitorState.Claim | apps/monitoring/app/alerter.py:239-294 | a claim reports the status stored under the lock, marks it reported, and touches nothing else |
| AlertRuns.OneSignalIsHeard | apps/monitoring/app/alerter.py:378-416 | whenever host-down silences a check, a critical check of that server is left that host-down does not silence |
| AlertRuns.SilencedByRank | apps/monitoring/app/alerter.py:378-416 | host-down silences a check exactly if an enabled check of its server that ranks before it (host ping, then heartbeat, then the rest) is critical |
| AlertRuns.StepKeepsInv | apps/monitoring/app/alerter.py:177-223 | every evaluation, dispatch and bundle claim keeps the reports legal and the counters right |
| AlertRuns.ReportsAreLegal | apps/monitoring/app/alerter.py:83-103 | in every interleaving the reports of a check are never unknown or pending, begin with a problem, never repeat, and say ok only right after a warning or critical |
| AlertRuns.ReportIsTheStoredStatus | apps/monitoring/app/alerter.py:239-294 | only a claim reports, and it reports the status stored at that moment |
| AlertRuns.BundleIsNeverSmall | apps/monitoring/app/alert_bundle.py:246-286 | a bundle claims nothing or at least three |
| AlertRuns.ReportedExactly | apps/monitoring/app/alert_bundle.py:246-286 | in every run a step reports a check exactly if it dispatches it outside maintenance and host-down, or bundles it with at least three that stand at the bundle's status unheld and unsilenced, while the check shows a problem other than its last report or the end of one |
| AlertRuns.DueCanBeReported | apps/monitoring/app/alert_bundle.py:136-148 | what is due of an unmuted heartbeat can be reported alone at once |
| AlertRuns.DueCanBeBundled | apps/monitoring/app/alert_bundle.py:246-286 | and three of them in one bundle |
| AlertRuns.DueUntilClaimed | apps/monitoring/app/alerter.py:265-275 | a report muted by maintenance or host-down stays due through everything but an evaluation of its check, until one claim makes it, once |
| AlertRuns.UnmutedDispatchReports | apps/monitoring/app/alerter.py:276-294 | a dispatch nothing mutes makes the report that is due |
| AlertRuns.CountersAreTrailingRuns | apps/monitoring/app/check_engine.py:73-123 | the counters are the lengths of the trailing not-ok and ok runs of the results |
| AlertRuns.ProblemOnlyAfterFails | apps/monitoring/app/check_engine.py:95-115 | ok or pending turns warning or critical only after consecutive_fails results in a row that are not ok, and then to the last result |
| AlertRuns.RecoveryOnlyAfterOks | apps/monitoring/app/check_engine.py:126-146 | a reported problem turns ok only after consecutive_oks ok results in a row, also when it comes back through unknown |
| AlertRuns.EvaluatedByHistory | apps/monitoring/app/check_engine.py:73-146 | in every run an evaluation leaves the check exactly where its results and reports say: at the result once the last consecutive_fails are all not ok, at ok unless a reported problem waits for its oks; a dispatch is queued exactly if there is something new to tell |
| AlertRuns.ProblemShowsAtThreshold | apps/monitoring/app/check_engine.py:89-115 | at the threshold the problem shows at once, and is dispatched unless it is the one reported |
| AlertRuns.AllClearAtThreshold | apps/monitoring/app/check_engine.py:126-146 | after consecutive_oks oks the check stands ok, and the all-clear of a reported problem is dispatched |
| AlertRuns.HeldNeverNotifies | apps/monitoring/app/check_engine.py:253-262 | a held result leaves nothing due and dispatches nothing |
| AlertRuns.NoDataIsNeverGreen | apps/monitoring/app/check_engine.py:109-114 | a check that never got data never stands green |
| AlertRuns.UnreportedEndsSilently | apps/monitoring/app/check_engine.py:136-142 | a problem never reported ends with the first ok, in silence |
| AlertRuns.TrailingFailsMeans | apps/monitoring/app/check_engine.py:73-86 | a count of n means that the last n results were not ok, and the other way round |
| AlertBundles.AlertLog.SendToRule | apps/monitoring/app/alerter.py:140-174 | one message, one log row per member |
| AlertBundles.AlertLog.SendRule | apps/monitoring/app/alert_bundle.py:353-366 | a rule gets exactly its matched members, in one bundle from three on and else alone |
| AlertBundles.AlertLog.SendRules | apps/monitoring/app/alert_bundle.py:341-367 | what a rule is sent does not depend on what the rules before it were sent |
| AlertBundles.EachRuleEachMemberOnce | apps/monitoring/app/alert_bundle.py:341-367 | each rule is told exactly once, with one log row, of each member whose severity and server it asks for, unless its channel took a message about that check within its cooldown (thirty minutes if it names none) and this is no all-clear; of no other member |
| AlertBundles.ToldThenQuiet | apps/monitoring/app/alerter.py:597-618 | over two runs: a rule whose channel took the first is told no alarm of the check again within its cooldown, one whose channel refused is told again, and an all-clear always |
| AlertBundles.OtherRulesDoNotCool | apps/monitoring/app/alerter.py:597-618 | log rows of other rules leave a rule's cooldowns as they were |
| Bell.EmittedIsNeverInfo | apps/monitoring/app/alerter.py:470-487 | what the bell decides to emit is never dropped as info |
| Bell.AllClearAtTheAlarmsLevel | apps/monitoring/app/alerter.py:425-476 | an alarm and its all-clear reach the bell at one level, whatever the check's severity became in between, exactly if the level shown before, capped by the severity, is not above the new status |
| Bell.ClearedBelowItsAlarm | apps/monitoring/app/alerter.py:425-476 | otherwise a critical check of high severity fell to warning: the event goes out high and its all-clear low |
| Bell.DeescalationClearsTooLow | apps/monitoring/app/alerter.py:441-467 | such a change, following an alarm the bell itself shows |
| Bell.SplitLevel | apps/monitoring/app/alert_bundle.py:443-453 | within a level everybody is in one event: bundled with a server when at least three have one, else alone |
| Bell.Chunks | apps/monitoring/app/alert_bundle.py:451-453 | chunks of at most 500 members, in order, nobody lost |
| Bell.ByLevel | apps/monitoring/app/alert_bundle.py:435-440 | the grouping puts every member under its own level, in order |
| Bell.Events | apps/monitoring/app/alert_bundle.py:428-453 | the events hold exactly the emitted members, each event of one level and within the hub's limit |
| Bell.SendBell | apps/monitoring/app/alert_bundle.py:418-468 | and the bell's record of a member changes exactly if the hub accepted its event |
| Bell.EventsAreDisjoint | apps/monitoring/app/alert_bundle.py:428-453 | no member is in two events |
| TemplateChecks.WriteFields | apps/monitoring/app/template_sync.py:451-470 | a sync writes every field the user did not change and none they did |
| TemplateChecks.MarkFields | apps/monitoring/app/template_sync.py:169-189 | an edit marks exactly the fields it makes differ from the template, and a changed type its config |
| TemplateChecks.Marked | apps/monitoring/app/template_sync.py:176-188 | a field that differs is marked, one set back is not, unless it is the config of a changed type; the others keep their mark |
| TemplateChecks.MergeIdempotent | apps/monitoring/app/template_sync.py:451-470 | writing twice is writing once |
| TemplateChecks.PairNeverMixed | apps/monitoring/app/template_sync.py:462-470 | a check's type and config are both the user's or both what the template writes |
| TemplateChecks.UntiedPairIsMixed | apps/monitoring/app/template_sync.py:184-187 | without the tie mark_overrides keeps, they would be mixed |
| TemplateChecks.TiedThroughout | apps/monitoring/app/template_sync.py:184-187 | every run of template changes and edits keeps that tie |
| TemplateChecks.BaselineThenSync | apps/monitoring/app/template_sync.py:198-246 | after the baseline a sync from the unchanged template changes no field of any check |
| TemplateChecks.MarkedSurvives | apps/monitoring/app/template_sync.py:198-246 | a marked field keeps value and mark through every later template change and edit of other fields |
| TemplateChecks.EditSurvives | apps/monitoring/app/template_sync.py:169-188 | an edit that differs from the template survives every later template change |
| TemplateChecks.SetBackFollows | apps/monitoring/app/template_sync.py:177-188 | a field set back to the template's value follows the template again, unless type and config are still the user's |
| TemplateChecks.UntouchedKeepsNewest | apps/monitoring/app/template_sync.py:451-461 | a field nobody changed, after any run of template changes and edits of others: name, type, interval, severity and fails needed are what the newest definition naming them says, or as they were |
| TemplateChecks.UntouchedGoesBack | apps/monitoring/app/template_sync.py:451-461 | description, config, switch and oks needed are what the last definition says, and go back to none, empty, on and two where it is silent |
| TemplateChecks.CreatedBySilence | apps/monitoring/app/template_sync.py:114-128 | what a new check gets where its definition is silent |
| TemplateSync.SyncChecks | apps/monitoring/app/template_sync.py:412-495 | on any table a sync leaves what it must leave, and the actions it collects turn the job table of before into the one of after; of two checks of one definition the one the query gave last is its own |
| TemplateSync.SyncLeavesExactly | apps/monitoring/app/template_sync.py:412-495 | a definition has a check afterwards exactly if it is defined and had one or is not tombstoned, or if the sync passed over a second check of it |
| TemplateSync.OnlyOneFollows | apps/monitoring/app/template_sync.py:422-446 | of all checks of one definition a sync writes exactly one, the others stay as they are |
| TemplateSync.SyncKeepsUnique | apps/monitoring/app/template_sync.py:412-495 | a sync doubles no definition |
| TemplateSync.SyncIdempotent | apps/monitoring/app/template_sync.py:412-495 | a second sync that picks the same checks changes nothing, exactly if the first passed over no check whose definition is gone |
| TemplateSync.SecondSyncChangesNothing | apps/monitoring/app/template_sync.py:412-495 | with one check per definition a second sync always changes nothing |
| TemplateSync.SyncTouchesNoOther | apps/monitoring/app/template_sync.py:422-427 | checks of other templates and servers are as they were, none added and none lost |
| TemplateSync.FollowKeepsIndex | apps/monitoring/app/template_sync.py:472-475 | the action that follows a check keeps the job table the index of the checks |
| MonitorService.Monitoring.constructor | apps/monitoring/app/scheduler.py:110-135 | after a start on any table the jobs are exactly the enabled checks that are not push-only, each at its interval |
| MonitorService.Monitoring.AddCheck | apps/monitoring/app/scheduler.py:73-96 | a push-only check loses its job, an unknown interval is refused and changes nothing |
| MonitorService.Monitoring.LoadAllChecks | apps/monitoring/app/scheduler.py:110-135 | the startup loop schedules exactly those checks |
| MonitorService.Monitoring.ApplySchedulerActions | apps/monitoring/app/template_sync.py:46-59 | the collected actions are replayed in order |
| MonitorService.Monitoring.SyncTemplate | apps/monitoring/app/template_sync.py:341-392 | the jobs stay that index over all servers of a template, and no definition is doubled; a transaction that fails changes neither checks nor jobs |
| MonitorService.Monitoring.SyncAssignment | apps/monitoring/app/template_sync.py:395-409 | the same for one server |
| MonitorService.Monitoring.ApplyTemplate | apps/monitoring/app/template_sync.py:555-611 | every definition becomes a check with the template's values, and the jobs follow; at most one check per definition stays true exactly if no definition is repeated or has a check on the server already |
| MonitorService.Monitoring.RemoveTemplate | apps/monitoring/app/template_sync.py:619-663 | exactly the checks and tombstones of the assignment go, and the jobs follow |
| MonitorService.Monitoring.RestoreChecks | apps/monitoring/app/template_sync.py:671-692 | afterwards the assignment has no tombstone and the server has a check for exactly the definitions of the template and those of a second check passed over, and the jobs follow |
| MonitorService.Monitoring.EditCheck | apps/monitoring/app/routers/checks.py:286-306 | an edit, also one that moves the check to another server, writes its fields, marks them, and the job follows, whatever the table; at most one check per definition stays true exactly if the server it moves to has none of that definition |
| MonitorService.SameServerNeverClashes | apps/monitoring/app/routers/checks.py:286-297 | an edit that leaves the server alone always keeps it |
| MonitorService.MovedCheckClashes | apps/monitoring/app/routers/checks.py:286-297 | a table with one check per definition and a move that doubles one |
| MonitorService.Monitoring.DeleteCheck | apps/monitoring/app/routers/checks.py:317-327 | a deletion leaves no job, and a tombstone exactly if the server has the template |
| Maintenance.TwoDaysAreEnough | apps/monitoring/app/maintenance.py:59-77 | for every window of at most 1440 minutes, and every longer one that ends within the next day, the today-and-yesterday test is membership in the unbounded weekly recurrence |
| Maintenance.LongerIsMissed | apps/monitoring/app/maintenance.py:66-68 | a longer window is missed at an instant given, if neither of the next two weekdays is one of its own |
| Maintenance.TwoDaysExactly | apps/monitoring/app/maintenance.py:59-77 | for such windows the test is right at every instant exactly up to 2880 minutes after the midnight they begin on |
| Maintenance.WeeklyActive | apps/monitoring/app/maintenance.py:59-77 | the loop over the two days is that test |
| Calendar.OrdinalIsWeekday | apps/monitoring/app/maintenance.py:71-72 | the weekday of a day number is the one Sakamoto's method computes from year, month and day |
| Calendar.DateOfNumber | apps/monitoring/app/maintenance.py:70-70 | every day number from 1 on is that of a date |
| Maintenance.WeekdayIsTheDates | apps/monitoring/app/maintenance.py:70-72 | the weekday a window goes by is that of the date, and 1970-01-05 was a Monday |
| Maintenance.MutesByTheCalendar | apps/monitoring/app/maintenance.py:59-77 | a weekly window is meant to mute exactly if the local clock is within its duration after its hour and minute on a date that falls on one of its weekdays |
| Maintenance.MutedByTheCalendar | apps/monitoring/app/maintenance.py:119-134 | so the test and the bands mute exactly if some enabled window of the server or of all servers runs, by its dates or by that wall clock |
| Maintenance.IsInMaintenance | apps/monitoring/app/maintenance.py:119-134 | the code mutes exactly when some enabled window of the server or of all servers is meant to |
| Maintenance.Occurrences | apps/monitoring/app/maintenance.py:98-112 | the occurrences collected day by day cover, inside the range, exactly the instants the window mutes, and none of them an instant it does not |
| Maintenance.Clip | apps/monitoring/app/maintenance.py:113-115 | cutting to the range changes nothing inside it, and every band lies in one of the intervals and carries the note |
| Maintenance.MaintenanceIntervals | apps/monitoring/app/maintenance.py:84-116 | the bands are sorted, inside the range, and cover exactly the instants at which alerts are muted; each carries the note of a window that applies and mutes throughout it |
| Maintenance.Sorted | apps/monitoring/app/maintenance.py:116-116 | the same bands, ordered by their begin |
| RoadmapText.WrittenRowReadsBack | scripts/dev/roadmap.py:248-267 | any list of clean cells, written as a row, reads back to the same cells |
| RoadmapText.CellIsClean | scripts/dev/roadmap.py:254-257 | whatever value a verb is given, its cell is clean and not empty |
| RoadmapText.CellsReadAreClean | scripts/dev/roadmap.py:260-267 | whatever line stands in the file, the cells read from it are clean, so a changed row reads back too |
| RoadmapText.CellBegins | scripts/dev/roadmap.py:254-257 | a cell of a word and anything behind it keeps that word in front |
| RoadmapCells.RowIdReads | scripts/dev/roadmap.py:460-466 | the ID written for a number is read as that number, however many digits it has |
| Calendar.NextDayIsNext | scripts/dev/roadmap.py:447-449 | day numbers follow the calendar: the day after has the next number |
| RoadmapCells.DayReads | scripts/dev/roadmap.py:270-276 | a date written behind text without digits is the day found there |
| RoadmapCells.StatusCellReads | scripts/dev/roadmap.py:408-413 | the status column written reads back to the status, and to the day written, whatever the note |
| RoadmapCells.RewordedReads | scripts/dev/roadmap.py:414-417 | a status word exchanged in any clean column reads as the new one and leaves the column clean |
| RoadmapCells.KeyReadBack | scripts/dev/roadmap.py:794-800 | the Dedup-Key a row is found by is the one given exactly if the source text names none and the key has neither a space nor a bare pipe, or the source text names this very key first |
| RoadmapCells.PipedKeyIsLost | scripts/dev/roadmap.py:785-800 | a key with a bare pipe is never the one read back |
| RoadmapCells.SecondKeyIsLost | scripts/dev/roadmap.py:785-800 | nor is a plain one behind a source text that names another: an input |
| RoadmapHeader.HeaderReads | scripts/dev/roadmap.py:565-585 | for every day and all counts, the header line written is one the header check has nothing to say about |
| RoadmapHeader.FieldIsText | scripts/dev/roadmap.py:183-183 | what is read as a counter of the header is one: a name, white space, a number, a slash and a cap |
| RoadmapHeader.TextIsField | scripts/dev/roadmap.py:183-183 | and every such text is read as that counter, with that number |
| RoadmapHeader.AltIsTheFirst | scripts/dev/roadmap.py:184-184 | the stale count read is the number at the first place "ALT:" begins a word with a number behind it |
| RoadmapHeader.AltIsRead | scripts/dev/roadmap.py:184-184 | and wherever it stands, one is read |
| RoadmapFile.Read | scripts/dev/roadmap.py:291-309 | the loop over the lines |
| RoadmapFile.ReadThenRender | scripts/dev/roadmap.py:287-320 | for every text, reading it and writing it back gives the same text |
| RoadmapFile.RenderThenRead | scripts/dev/roadmap.py:318-331 | every readable document, written and read, has the same rows and lines, but for an empty last line of a file without a final newline, which becomes one |
| RoadmapFile.GoodRowReads | scripts/dev/roadmap.py:301-308 | good cells are read as that row, never as a line or a separator |
| RoadmapFile.InsertReadable | scripts/dev/roadmap.py:356-373 | a row put in under a heading leaves everything else to be read as before |
| RoadmapFile.RemoveReadable | scripts/dev/roadmap.py:375-377 | so does a row taken out |
| RoadmapFile.ReplaceReadable | scripts/dev/roadmap.py:408-423 | so does a row changed in its place |
| RoadmapFile.TableReadable | scripts/dev/roadmap.py:369-372 | the head of a new table is two lines, never rows |
| RoadmapFile.GoodItemCells | scripts/dev/roadmap.py:301-308 | a row that was read has clean one-line cells, so a verb can write it again |
| RoadmapFile.OtherCharNoSeparator | scripts/dev/roadmap.py:178-178 | a line with any character but dashes, colons, pipes and white space is no separator |
| RoadmapRows.NextIsKept | scripts/dev/roadmap.py:939-969 | if the open rows and the done state of what they need are kept, the next row of every open status is the same, whatever makes rows eligible |
| RoadmapRows.RemoveSafe | scripts/dev/roadmap.py:430-458 | taking out a closed row no open row needs keeps both |
| RoadmapRows.MoveSafe | scripts/dev/roadmap.py:452-454 | moving a closed row to the archive keeps both |
| RoadmapRows.SectionNamed | scripts/dev/roadmap.py:279-284 | a heading is that of a section exactly if its title is the section's, alone or with words behind it |
| RoadmapLife.LegalIsAStep | scripts/dev/roadmap.py:400-405 | what status accepts is a step of a life: the same status or one TRANSITIONS names |
| RoadmapLife.ClosedForGood | scripts/dev/roadmap.py:162-175 | over any run of changes a rejected row stays rejected, and a done one is never opened again |
| RoadmapLife.DoneWasWorkedOn | scripts/dev/roadmap.py:162-175 | over any run of changes a row that ends as done was active, then ready, then in a pull request right before that |
| RoadmapLife.ComesFrom | scripts/dev/roadmap.py:162-175 | what an entered, approved, active, blocked or deferred row can come from |
| RoadmapLife.CanBeDone | scripts/dev/roadmap.py:162-175 | every open row can still be done, and every row but a rejected one be rejected at once |
| RoadmapHeadings.ClosedHeadingNames | scripts/dev/roadmap.py:455-457 | whatever number of days a heading of the closed rows names, it is their section |
| RoadmapHeadings.ClosedHeadingIs | scripts/dev/roadmap.py:180-180 | the heading prune renews is exactly the one with a number for its days |
| RoadmapCellsWritten.StatusCellsRead | scripts/dev/roadmap.py:406-423 | the cells a status change writes, with note, ledger and PR, are good, and read as the same row in the new status |
| RoadmapCellsWritten.ClosedToday | scripts/dev/roadmap.py:408-413 | a row that closes carries today as its day |
| RoadmapCellsWritten.ApprovedCellsRead | scripts/dev/roadmap.py:763-776 | the cells an approval writes are good, and read as the same row in the new status |
| RoadmapCellsWritten.AddedCellsRead | scripts/dev/roadmap.py:782-802 | the cells of a new row are good, and read as a new row of that number, found by the first key its source cell names |
| RoadmapCellsWritten.ExpiresReads | scripts/dev/roadmap.py:782-802 | its expiry reads as the day its class says |
| RoadmapItems.StatusKeepsClean | scripts/dev/roadmap.py:518-564 | a legal status change and refiling leaves nothing for lint to report |
| RoadmapItems.AddKeepsClean | scripts/dev/roadmap.py:518-564 | so does a new row with a fresh ID, if no open row carries its key |
| RoadmapItems.SameKeyIsAFinding | scripts/dev/roadmap.py:554-562 | two open rows of one key are a finding |
| RoadmapItems.NamelessOwnerIsOverlooked | scripts/dev/roadmap.py:790-793 | add refuses a key exactly when an open row has it, if and only if the first such row has an ID |
| RoadmapVerbs.Roadmap.SectionBounds | scripts/dev/roadmap.py:343-354 | the first section of a name, up to the next heading, or that there is none |
| RoadmapVerbs.Roadmap.InsertRow | scripts/dev/roadmap.py:356-373 | the row stands in its section afterwards, before its first row or behind its last, every other row where it was, and the text still reads row by row |
| RoadmapVerbs.Roadmap.OpenTable | scripts/dev/roadmap.py:369-372 | a table opened under a heading changes no row and no section |
| RoadmapVerbs.Roadmap.Find | scripts/dev/roadmap.py:379-389 | the one row of an ID; refused as unknown, doubled or broken exactly when no row, several rows, or one row of other than ten columns has it |
| RoadmapVerbs.Roadmap.SetStatus | scripts/dev/roadmap.py:391-428 | goes through exactly if the row is found, its status known, the transition legal and its section there, else the answer says which of these failed; the row then reads in its new status, with note, ledger and PR, and stands in the section of it, every other row as it was |
| RoadmapVerbs.Roadmap.Add | scripts/dev/roadmap.py:782-802 | goes through exactly if class, title, source and key are right, no open row with an ID carries the key first, the expiry is a date and the section is there, else the answer says which failed; the new row's written ID reads above every one in the file and every one issued |
| RoadmapVerbs.Roadmap.Approve | scripts/dev/roadmap.py:763-776 | goes through exactly if the row is found, waits for this and its section is there; it then reads in the other status, the rest of its columns as before |
| RoadmapVerbs.Roadmap.Prune | scripts/dev/roadmap.py:430-458 | afterwards a closed row past its days is needed by an open row and in the archive, every other row stands where it stood, the count says how many went, and the next row of every open status is kept; for every file, clean or not |
| RoadmapVerbs.Roadmap.RenewHeadings | scripts/dev/roadmap.py:455-457 | exactly the headings of the closed rows are rewritten; no row and no section changes |
| RoadmapVerbs.ClosedRowStaysItsDays | scripts/dev/roadmap.py:408-413 | a row that closes today is not pruned for seven days |
| RoadmapVerbs.Roadmap.SetNextUp | scripts/dev/roadmap.py:468-474 | rewriting the first section with any prose lines loses no row filed elsewhere and leaves the text readable |
| RoadmapVerbs.Roadmap.Highest | scripts/dev/roadmap.py:460-463 | no number in the rows or issued before is above it |
| RoadmapVerbs.Roadmap.Perform | scripts/dev/roadmap.py:763-802 | every verb goes through exactly as it is specified, changes the row count by what it announces and keeps the rows clean, an add exactly as far as its key allows |
| RoadmapWrite.SetHeader | scripts/dev/roadmap.py:476-485 | the header line is written above the first section, reads back, and no row changes |
| RoadmapWrite.Lint | scripts/dev/roadmap.py:518-585 | lint finds nothing exactly if rows and header of the text are clean |
| RoadmapWrite.WrittenReads | scripts/dev/roadmap.py:318-331 | the text written of any readable items reads to the same rows and the same header |
| RoadmapWrite.RoadmapOnDisk.Write | scripts/dev/roadmap.py:624-680 | text to text: from a file whose rows are lint-clean, status and approve with prune and header give a text that, read again, is lint-clean; an add does so exactly if no open row carries the key its source cell names first; with all sections there it goes through exactly if the verb does; the row count is the announced one, restoring for a wrong count never happens, and a refusal changes nothing |
| RoadmapWrite.CleanOrNot | scripts/dev/roadmap.py:518-564 | what lint says of the rows after verb and prune, from what it says before, both ways |
| RoadmapWrite.KeyGivenIsFree | scripts/dev/roadmap.py:789-800 | an add let through whose key is read back as given, and not carried by a row without an ID, leaves the file clean |
| RoadmapWrite.GivenKeyMisleads | scripts/dev/roadmap.py:789-800 | an add that finds its key free and still leaves two open rows of one key |
| RoadmapWrite.NamelessOwnerHappens | scripts/dev/roadmap.py:790-793 | a text, its rows lint-clean, in which a key is on an open row without an ID |
| RoadmapWrite.Session | scripts/dev/roadmap.py:460-466 | however the file is edited by hand in between, the IDs the adds return strictly increase |

## Left out

- Real cryptography, PEM and DER, JSON, file modes, the lock file of the commands: certificates and keys are symbolic, a file is absent or well-formed, and a passphrase opens a key or does not.
- Power loss that reorders renames: a cut is a process stop after a prefix of the file operations.
- The clock within one command: a command reads it once, where the code reads it again for every certificate; scopes are the three the code knows, so the refusal of an unknown scope name is not there.
- The creation of the hierarchy at the very first start, cut part way, and the migration of older directories.
- RenewalTheorems.StoppedSwitchEnds: the options of all attempts are the same; a continued switch with other options is refused by the modelled code, but nothing is stated about it.
- ClientPaths.OldClientReaches: names are reduced to the domain; further subject alternative names and the frps server certificate are not modelled.
- The warnings about ending certificates, the status command and its output.
- FinishLock.LockedFinishStrandsNobody: the register is one snapshot; a certificate recorded between the query and the finish is not part of the statement.
- Pruning of expired certificates, lines and tokens by the server: rows are only added, spent and revoked. Single-line revocation and take-over by the server are single steps under their locks.
- StoreRuns.RunBoth: deprovisioning writes the row of the revoked identity only, as the in-memory store has no counterpart of the lines the server revokes with it. A second mint of a token and concurrent use of the in-memory store are not modelled.
- AlertRuns.ReportsAreLegal: the state row exists or is created by the first result; the fallback for a dispatch without one is not modelled. Whether a heartbeat waits alone for others decides only when a dispatch is selected, so every choice is allowed.
- The bell's slot in process_alert, reserved with the claim and handed back after a failed post: only the bundle's record is modelled.
- Webhook, mail and hub requests, message texts, rule results in the hub's payload, logging, metrics, history queries: a send is a success or a failure.
- AlertBundles.AlertLog.SendRules: one time for the whole run, where the cooldown reads the clock for every member.
- Substitution of variables into definitions, unreadable stored JSON, alert rules of a template, tag assignments, manual checks created by hand, the reset of a check.
- TemplateSync.SyncChecks: definitions with distinct ids; a template with a repeated id writes its check, or creates one, once per repetition.
- MonitorService.Monitoring.ApplySchedulerActions: intervals are valid, as the schema demands; the exception of the scheduler in the middle of a replay is not modelled.
- Maintenance.MaintenanceIntervals: zones of a fixed offset; across a change of daylight saving time the two functions compare different clocks.
- Maintenance.MutesByTheCalendar: from the second day of the year 1 on, where every date has a number.
- RoadmapWrite.RoadmapOnDisk.Write: the quiet period, the backup file, the lock and the commit are not modelled; the lines under "Als Nächstes" are any prose lines without a newline.
- RoadmapWrite.Lint: digits and word characters are ASCII, where the script's patterns take Unicode's; dates lie in the years 1 to 9999.
- Git, gh and ledger lookups, trains, sync, stats and the text of "Als Nächstes": what makes a row eligible for next is any function of the row.
- The agent, the web and desktop applications, provisioning of virtual machines, database roles, documentation and lock tools: they would only add easy members or depend on foreign interfaces.
