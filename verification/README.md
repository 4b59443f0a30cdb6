# Control-plane protocols and formats, verified

A Dafny model of a small platform that runs apps in containers on a fleet of nodes: the masters that publish
routes and schedule, bill and upgrade apps, the agents on the nodes, and the formats they exchange. `dafny verify
dfyconfig.toml` checks everything.

The modules follow the parts of the platform:

- **Routes** (`HostTables`, `RoutePublisher`). The tables built from one snapshot of the database, and the protocol by
  which several masters share one revision counter and push to nodes that accept on the revision alone.
- **Boot recovery** (`DesiredState`, `BootRecovery`). The record of what should run, and the pass that starts recorded
  containers after a reboot while operators start, stop and remove them.
- **Local runtimes** (`RuntimeLedger`, `RuntimeService`, `RuntimeReach`). A crash-safe ledger, CLAIMED, READY, ACTIVATING,
  ACTIVE, and the service that creates, swaps and tears down containers and broker directories under it.
- **Usage** (`Timeline`, `UsageMeter`, `Billing`, `BillingLaws`, `UsageDay`). Metering of replicas and billing of apps over a day,
  and what events that arrive late can change.
- **Archives** (`TarCatalog`, `Ustar`, `OciArchive`). A USTAR reader and writer (the ustar interchange format of POSIX.1)
  and the verifier of OCI image archives (image layout, manifest and descriptor of the OCI image specification).
- **JSON** (`JsonLexical`, `StrictJson`, `JsonSound`, `JsonComplete`, `JsonCursor`, `JsonLaws`, `CanonicalJson`). The strict
  parser against the grammar of RFC 8259, sections 2 to 7, and the canonical printing order.
- **Upgrades, scheduling, locks, inventories** (`UpgradeSaga`, `UpgradeLaws`, `UpgradeHistory`, `Scheduler`,
  `PromiseLocks`, `ResourceInventory`).

Code that mutates objects is modelled by classes and loops that are proved equal to a specification function; the laws
are then proved of that function. Code that awaits between its effects is modelled as a state machine whose steps are
the stretches between two awaits; its laws hold in every reachable state or for every run. Agents, database, Docker,
hashes and JSON readers that cannot be seen are parameters: arbitrary functions, or arbitrary answers in a step.

Where the code and its stated intent differ, the model follows the code, and a lemma says exactly when:

- `rolledBack` is true of an upgrade if and only if every replica was on the previous image when the attempt began
  (`UpgradeLaws.RolledBackExactly`): after an attempt whose revert was lost, a retry that fails early reports a roll back
  that did not happen (`UpgradeHistory.RetryReportsRollBack`);
- the strict parser accepts repeated members named `__proto__`, and no other (`JsonLaws.SpelledIsAccepted`,
  `JsonLaws.ProtoRepeats`);
- an event that arrives after the end of accounting moves a billed interval past the recorded removal if and only if it closes
  or re-bases an interval which that removal cut (`UsageDay.LateEventsChange`); for an app without billing events, late events
  matter exactly as `UsageDay.LateEventsChangeLegacy` and `UsageDay.LateBillingDrops` say;
- a container that is recorded stopped runs if and only if a start or stop of it was interrupted and nothing has settled it since
  (`BootRecovery.StoppedRunsExactly`, `BootRecovery.SettlesExactly`), which a failing stop brings about
  (`BootRecovery.CutShortBreaks`);
- the ledger's lock never drops a key (`PromiseLocks.EntryForEver`).

## Model

| member | source | states |
|---|---|---|
| HostTables.MeshIps | src/master/host-table-publisher.ts:190-194 | The mesh addresses of an app are exactly the non-empty addresses of the runtime nodes its replicas are on. |
| HostTables.RulesFor | src/master/host-table-publisher.ts:188-221 | A rule is in the snapshot exactly when some routed app has it: one rule for each registry host, or the app's own label when it has none. |
| HostTables.BuildRules | src/master/host-table-publisher.ts:188-222 | The rule-building loop computes that rule list, in app order. |
| HostTables.RuntimeTable | src/master/host-table-publisher.ts:252-265 | A runtime entry is in a node's table exactly when an app has a replica on that node, with every host the rules route to the app. |
| HostTables.BuildRuntimeTable | src/master/host-table-publisher.ts:252-265 | The entry-building loops compute that table. |
| HostTables.EntriesOnMeaning | src/master/host-table-publisher.ts:255-264 | An app has entries on a node if and only if it has a replica there, and every entry carries the same hosts. |
| HostTables.TablesAgree | src/master/host-table-publisher.ts:247-265 | The two tables of one snapshot never disagree: an ingress forwards a host to a runtime node for an app exactly when that node's own table serves that host for it. |
| HostTables.Accept | src/handlers/host-table.ts:78-80 | Accepting a push never lowers the stored revision, replaces the table only by a strictly newer one and otherwise leaves it alone; the result holds at least the pushed revision. |
| HostTables.HostTableAgent.PutRuntime | src/handlers/host-table.ts:103-111 | The runtime route replaces its own table exactly by that rule, leaves the ingress table alone, refuses revision 0 and always reports a revision at least as new as the push. |
| HostTables.HostTableAgent.PutIngress | src/handlers/host-table.ts:113-126 | The same for the ingress route. |
| RoutePublisher.InvRuns | src/master/host-table-publisher.ts:107-146 | The protocol invariant holds after every run of any number of masters, with pushes delayed, lost and repeated, retries and abandoned passes. |
| RoutePublisher.MarksRise | src/master/host-table-publisher.ts:107-110 | What a master has marked it never forgets, through database errors, its own death and restart, and everything the others do. |
| RoutePublisher.QuietCoversMarks | src/master/host-table-publisher.ts:107-146 | Whatever version a master has marked, whenever that master is neither dirty nor pumping every node that has been a target since holds a table that covers every write up to it; the other masters may be anywhere, and database errors and deaths are among the steps. |
| RoutePublisher.QuietIsCurrent | src/master/host-table-publisher.ts:107-146 | Once a quiet master has marked the latest write, every target holds exactly its table of the current database. |
| RoutePublisher.QuietReached | src/master/host-table-publisher.ts:107-146 | A quiet master with a mark is reached: a pass whose one push is delivered and acknowledged ends there. |
| RoutePublisher.StoredCoversAllocation | src/master/host-table-publisher.ts:153-167 | A table stored under revision r covers every write committed before r was allocated, although its three collections were read at different moments. |
| RoutePublisher.RevisionsRise | src/handlers/host-table.ts:106-110 | A stored revision never falls, and a success reply proves that the node holds at least that revision, then and for ever after, also when the push was not applied. |
| RoutePublisher.DeliverRuntime | src/handlers/host-table.ts:103-111 | The agent's route does what the protocol's delivery step says. |
| RoutePublisher.ErrorEndsInRestart | src/master/master-entry.ts:76-82 | A pass that meets a database error is the end of its master: the only step that changes that master again is its restart, which marks the database as it then is, at least as new as anything it had marked. |
| DesiredState.Seeded | src/docker/desired-state.ts:117-122 | Seeding adds the running containers that have no entry, as running, and overwrites none. |
| DesiredState.DesiredStateStore.Load | src/docker/desired-state.ts:61-80 | A missing or unreadable file reads as absent, and an unreadable one is moved aside. |
| DesiredState.DesiredStateStore.Mark | src/docker/desired-state.ts:96-102 | After a mark the file holds the old entries with that one set, whatever was on disk; a disabled store changes nothing. |
| DesiredState.DesiredStateStore.Remove | src/docker/desired-state.ts:104-110 | After a removal the file reads as before without that entry. |
| DesiredState.DesiredStateStore.SeedAndStamp | src/docker/desired-state.ts:113-125 | After stamping, the file holds the current boot id and the seeded entries. |
| DesiredState.DesiredStateStore.Read | src/docker/desired-state.ts:128-135 | Reading returns the stored file, if there is one, and changes nothing that can be read. |
| BootRecovery.InvRuns | src/docker/desired-state-recovery.ts:49-149 | The recovery invariant holds after every run of operators, workers, failures, crashes and reboots. |
| BootRecovery.StoppedRunsExactly | src/docker/container-manager.ts:358-407 | Whatever the interleaving of any number of operator calls with the workers, failures, crashes and reboots: a container on which nobody is working runs although it is recorded stopped if and only if a step of the run interrupted a start or stop of it and left it so, and no later step settled it. |
| BootRecovery.SettlesExactly | src/docker/container-manager.ts:358-407 | Which steps settle such a container: its exit, a reboot, a creation, stop, forced removal or record write that takes effect, by an operator, also when the call then fails, or by a recovery worker that forgets or re-stops it; every other step leaves it as it is. |
| BootRecovery.RecordedStoppedIsStopped | src/docker/container-manager.ts:374-391 | When every call succeeds, a container that is recorded stopped and on which nobody is working is not running. |
| BootRecovery.CutShortBreaks | src/docker/container-manager.ts:374-379 | Such an interruption is reachable: a stop that fails after it has marked the record leaves the container running. |
| BootRecovery.StampedLast | src/docker/desired-state-recovery.ts:60-78 | The boot id on disk changes only when a pass ends; each recorded-running candidate has then been attempted exactly once, and started, failed and skipped counts add up to the candidates. |
| BootRecovery.NoSecondRecovery | src/docker/desired-state-recovery.ts:54-60 | Once the boot is stamped, no later agent start of that boot touches any container, however often the agent crashes. |
| BootRecovery.CrashRetries | src/docker/desired-state-recovery.ts:77-78 | After a crash at any point before the stamp the next start has all recorded-running containers as candidates again. |
| RuntimeLedger.OpKeeps | src/local-runtime/ledger.ts:171-409 | Every mutator keeps the ledger invariant: the optional fields of a row are those of its state, state rank and evidence never go back, ids are minted once, a slot names a row of its generation and moves only when its row is deleted or a row becomes ACTIVE. |
| RuntimeLedger.ReachableLedger | src/local-runtime/ledger.ts:171-409 | The invariant holds in every ledger that mutators can make of the empty one. |
| RuntimeLedger.RowsOnlyGrow | src/local-runtime/ledger.ts:236-398 | Over any run that does not delete a row, everything the row has recorded stays as it is and its state rank never falls. |
| RuntimeLedger.Ledger.ClaimRow | src/local-runtime/ledger.ts:171-234 | The claim mutator on the ledger file is the claim operation: same row, conflict or new row, and slot only if empty. |
| RuntimeLedger.Ledger.RecordContainerId | src/local-runtime/ledger.ts:236-244 | The mutator is its operation. |
| RuntimeLedger.Ledger.MarkRowReady | src/local-runtime/ledger.ts:246-267 | The mutator is its operation, replays included. |
| RuntimeLedger.Ledger.ClaimRowActivation | src/local-runtime/ledger.ts:269-308 | The mutator is its operation, replays and conflicts included. |
| RuntimeLedger.Ledger.RecordRegistration | src/local-runtime/ledger.ts:311-319 | The mutator is its operation. |
| RuntimeLedger.Ledger.RecordActiveContainerReady | src/local-runtime/ledger.ts:336-354 | The mutator is its operation; the readiness time is written once. |
| RuntimeLedger.Ledger.MarkRowActive | src/local-runtime/ledger.ts:356-398 | The mutator is its operation, and the generation's slot then names this row. |
| RuntimeLedger.Ledger.DeleteByRuntimeId | src/local-runtime/ledger.ts:401-409 | Deleting drops the row and its slot if it holds it, and says whether there was a row. |
| RuntimeService.InvRuns | src/local-runtime/runtime-service.ts:534-919 | The service invariant holds after every run of requests, crashes between any two effects, restarts and rebinding, in which a runtime or the whole pass may fail. |
| RuntimeReach.ReadyReached | src/local-runtime/runtime-service.ts:534-577 | The replies are no empty promise: for every request some run ends in a READY reply. |
| RuntimeReach.ActiveReached | src/local-runtime/runtime-service.ts:600-741 | For every activation of a request some run ends in an ACTIVE reply of its ACTIVE row. |
| RuntimeService.NamedByRows | src/local-runtime/runtime-service.ts:557-586 | At every point of every run each existing container and each broker directory is named by a ledger row. |
| RuntimeService.AbsentMeansGone | src/local-runtime/runtime-service.ts:776-777 | Once remove comes to its last two checks, row, container and both broker directories are gone, so neither check can fail and the answer is ABSENT. |
| RuntimeService.RepliesNeverDiffer | src/local-runtime/runtime-service.ts:552-577 | Until a row is deleted, every READY reply and every ACTIVE reply for it carries one and the same document, across crashes and retries. |
| RuntimeService.ActiveRowsRunActive | src/local-runtime/runtime-service.ts:673-741 | Under an ACTIVE row the container is absent or the one created for exactly that activation. |
| RuntimeService.NeverDrifts | src/local-runtime/runtime-service.ts:557-586 | When a reconcile comes to check a container against its policy, the container is one with that policy. |
| RuntimeService.ClaimedRowsNeedRemove | src/local-runtime/runtime-service.ts:825-834 | A row whose activation was claimed disappears only in the last step of a remove of that runtime. |
| Timeline.FilterSort | src/master/usage-aggregator.ts:81-83 | Filtering events and sorting them stably by time may change places. |
| UsageMeter.MeterReplicas | src/master/usage-aggregator.ts:75-100 | The integration loop gives every app the memory and CPU time of the metering function. |
| UsageMeter.MeteredIsPerInstant | src/master/usage-aggregator.ts:72-100 | The integration equals a reference that sums, over every millisecond in the accounted window, what the sorted events up to that instant leave running; for every weight of a load. |
| UsageMeter.AdjacentWindowsAdd | src/master/usage-aggregator.ts:53-100 | The totals of two adjacent windows add up to the total of the joined window. |
| Billing.CutSegments | src/master/usage-aggregator.ts:133-159 | The segment loop computes the segments of the fold, the last one cut at the recorded removal. |
| Billing.BillSegments | src/master/usage-aggregator.ts:161-185 | The billing loop computes the row of the segments clipped to the window. |
| Billing.SegmentsApart | src/master/usage-aggregator.ts:137-159 | The segments of an app never overlap. |
| Billing.CoverIsBilled | src/master/usage-aggregator.ts:137-159 | In every accounted millisecond the segments hold exactly what the fold of the events says is installed, cut at the removal if the last interval is never closed. |
| BillingLaws.BilledIsInstalled | src/master/usage-aggregator.ts:133-185 | The billed time is the number of milliseconds in which the app is installed, storage is summed over them, and memory, CPU, scratch size and replica count are the largest values held in any of them. |
| UsageDay.BilledIsLived | src/master/usage-aggregator.ts:196-218 | An app from before billing events is billed for the milliseconds of the day in which its document lived, and has no row if there are none. |
| UsageDay.FractionOfDay | src/master/usage-aggregator.ts:167-181 | An app that has a row is billed for more than nothing and at most one day, with billing events or without. |
| UsageDay.LateEventsChange | src/master/usage-aggregator.ts:133-159 | For an app with a billing event, events at or after the end of accounting leave its row as it was if and only if not both: a recorded removal cuts its last interval before that end, and one of the late events closes or re-bases that interval. |
| UsageDay.LateEventsIgnored | src/master/usage-aggregator.ts:133-159 | For an app with a billing event and no recorded removal, events at or after the end of accounting change nothing in its row. |
| UsageDay.LateEventsChangeLegacy | src/master/usage-aggregator.ts:188-205 | For an app without billing events, late events change its row if and only if its document existed before the end of accounting and they hold its first start, in a life that reaches into the day, or the first removal event of a document whose recorded removal cuts the day. |
| UsageDay.LateBillingDrops | src/master/usage-aggregator.ts:197 | The first billing event of such an app drops its row when it comes late. |
| UsageDay.BillWorkspace | src/master/usage-aggregator.ts:115-218 | Exactly the apps that are billed for some time, by their billing events or by the fallback, get a row, each its own. |
| TarCatalog.CatalogTiles | src/local-runtime/oci-archive.ts:101-147 | Members of an accepted archive tile the file from its start to the end marker: header, padded data, next header, without gap or overlap. |
| TarCatalog.SpliceCatalogs | src/local-runtime/oci-archive.ts:358-367 | One more member appended at the end marker is catalogued after exactly the old members. |
| TarCatalog.SpliceKeeps | src/local-runtime/oci-archive.ts:358-367 | Appending a member leaves every old member's bytes as they were. |
| Ustar.OctalRoundTrip | src/local-runtime/oci-archive.ts:77-93 | Printing a size and parsing the field undo each other for every size below 8^11. |
| Ustar.HeaderRoundTrip | src/local-runtime/oci-archive.ts:115-140 | A header written for a plain name is read back as that file, with all checks passed. |
| Ustar.CatalogTarMembers | src/local-runtime/oci-archive.ts:101-147 | The catalog loop terminates on every byte string and computes the catalog. |
| Ustar.AcceptedArchive | src/local-runtime/oci-archive.ts:101-147 | What the catalog accepts: members that tile the file up to a zero block, all data inside, none overlapping. |
| Ustar.WriteUstarHeader | src/local-runtime/oci-archive.ts:340-356 | The header written field by field, checksum last, is the header function's. |
| Ustar.SplicedArchive | src/local-runtime/oci-archive.ts:358-380 | Cataloguing an accepted archive cut at its data end with the docker trailer behind it gives exactly the old members, byte for byte, and one file manifest.json with the printed bytes. |
| OciArchive.ByName | src/local-runtime/oci-archive.ts:244-248 | The name map is built exactly when no two members share a name. |
| OciArchive.VerifyOciArchive | src/local-runtime/oci-archive.ts:220-337 | The procedure, with its name map and loops, computes the verdict, each failure with its reason. |
| OciArchive.VerifiedArchive | src/local-runtime/oci-archive.ts:226-333 | An accepted archive is the declared file; its files are layout, index, manifest, config and layers and no others, names are unique, and every blob is named after the digest of its own bytes. |
| OciArchive.LoadableArchive | src/local-runtime/oci-archive.ts:358-380 | For a verified archive the docker trailer always fits its size field and, if there is room for one more member, adds exactly the one file. |
| JsonLexical.PiecesComplete | src/local-runtime/canonical.ts:43-79 | Every spelling of a string is read back as itself. |
| JsonLexical.NumberComplete | src/local-runtime/canonical.ts:81-88 | Every spelling of a number is read back whole when nothing follows that could extend it. |
| JsonSound.FormSound | src/local-runtime/canonical.ts:90-149 | Whatever the reader accepts is spelled, unit for unit, by the form it returns, and a strict reader returns no repeated name. |
| JsonComplete.FormComplete | src/local-runtime/canonical.ts:90-149 | Every well-spelled form without repeated names is read back as itself, and a lenient reader reads every well-spelled form. |
| JsonCursor.Cursor.ParseString | src/local-runtime/canonical.ts:43-79 | The string loop over the cursor returns what the pieces read stand for and stops behind the closing quote. |
| JsonCursor.Cursor.ParseMembers | src/local-runtime/canonical.ts:112-128 | The member loop collects the own members of the entries read and refuses a name it already has. |
| JsonCursor.StrictJsonParse | src/local-runtime/canonical.ts:158-164 | The cursor parser terminates on every text and computes the strict parse. |
| JsonLaws.Unambiguous | src/local-runtime/canonical.ts:158-164 | No text has two spellings. |
| JsonLaws.AcceptedIsSpelled | src/local-runtime/canonical.ts:158-164 | An accepted text is, from its first unit to its last, a spelling of the value returned. |
| JsonLaws.SpelledIsAccepted | src/local-runtime/canonical.ts:115-117 | A spelled text is accepted exactly when no object in it repeats a name other than __proto__, with the value it spells; otherwise it is refused for a repeated name and for nothing else. |
| JsonLaws.StrictMeans | src/local-runtime/canonical.ts:115-120 | What the duplicate check amounts to: within one object no two names are equal, __proto__ excepted. |
| JsonLaws.ProtoRepeats | src/local-runtime/canonical.ts:115-120 | The exception is real: an object with two members __proto__ is accepted, as the empty object. |
| CanonicalJson.ReturnedIsProper | src/local-runtime/canonical.ts:158-164 | The values the parser returns are exactly those with distinct names, none of them __proto__. |
| CanonicalJson.RoundTrip | src/local-runtime/canonical.ts:158-164 | Parsing what is printed for a value gives the value back. |
| CanonicalJson.UnitsOrder | src/local-runtime/dispatch-trust-env.ts:28 | The order in which names are sorted, by code units, is a total order. |
| CanonicalJson.CanonicalTextMeans | src/local-runtime/dispatch-trust-env.ts:23-33 | The sorted canonical text of two values is the same if and only if they differ in the order of members only, at every depth. |
| UpgradeSaga.Cluster.Upgrade | src/master/deployment-service.ts:1193-1440 | The upgrade procedure with its forward loop, save and revert loop computes the attempt's result, record, images and number of calls. |
| UpgradeLaws.SuccessIsOnTarget | src/master/deployment-service.ts:1327-1412 | Success leaves every replica and the stored record on the target image, after one call for each replica. |
| UpgradeHistory.RevisionsRise | src/master/deployment-service.ts:1232-1242 | Over any history of attempts, with any agents and saves, the revisions of successive successes strictly rise. |
| UpgradeHistory.NeverFallsOver | src/protocol/protocol-v3.ts:347-368 | Between any two points of a history the epoch does not fall and rises by no more than the applied revision does; while the revision stands still, nothing that was applied changes. |
| UpgradeHistory.EpochGrowth | src/protocol/protocol-v3.ts:347-368 | Over a history the epoch never falls and rises by at most one for each attempt that succeeded, or whose save reached the database although its call failed. |
| UpgradeHistory.AppliedOnce | src/master/deployment-service.ts:1198-1242 | A command is applied at most once: any attempt with it after its success makes no agent call and changes no replica and no record; it answers the strategy of that success if and only if the app is running and nothing newer was applied, and is refused otherwise. |
| UpgradeLaws.RolledBackMeans | src/master/deployment-service.ts:1412-1438 | A report of having rolled back means that every replica that moved is on the previous image and every other is as it was. |
| UpgradeLaws.RolledBackExactly | src/master/deployment-service.ts:1430-1438 | A report of having rolled back means that every replica is on the previous image, for all honest agents, if and only if every replica was on it before the attempt. |
| UpgradeHistory.RetryReportsRollBack | src/master/deployment-service.ts:1412-1438 | The mixed images are reachable: an attempt whose revert call is lost reports no roll back, and the same command, admitted again, then reports one while the first replica is on the target. |
| UpgradeLaws.StaysCoherent | src/master/deployment-service.ts:1327-1438 | From replicas on the recorded image, an attempt that succeeds or reports a roll back leaves replicas on the recorded image. |
| Scheduler.Plan.SelectNodes | src/master/scheduler.ts:42-83 | The selection loop returns the greedy picks, books each of them in the caller's list, also when it then fails, and reports the right code. |
| Scheduler.TakesRoomiest | src/master/scheduler.ts:52-65 | The node taken is a candidate, and no candidate has more free memory, or as much memory and more free disk. |
| Scheduler.SelectionMeans | src/master/scheduler.ts:49-83 | Selected nodes are active, distinct in id and failure domain and fit by the original reservations; with unique node ids selection fails if and only if fewer failure domains than replicas have a fitting active node. |
| Scheduler.NothingOverbooked | src/master/scheduler.ts:21-40 | After a selection no selected node is booked beyond its capacity. |
| PromiseLocks.MutualExclusionInOrder | src/master/workspace-lock.ts:4-14 | With any number of callers, whose actions may throw, no two actions with one key run at once, and they start in order of arrival. |
| PromiseLocks.NeverStuck | src/master/workspace-lock.ts:8-18 | The first caller of a key that is not done is running or may start. |
| PromiseLocks.EntryWhileBusy | src/master/workspace-lock.ts:15-18 | The workspace lock has an entry for a key exactly while some caller of the key is not done. |
| PromiseLocks.EntryForEver | src/local-runtime/ledger.ts:83-95 | The ledger's lock has an entry for every key it was ever asked for: it compares with a promise made on the spot. |
| ResourceInventory.NormalizeResources | src/master/runtime-resource-inventory.ts:59-74 | The duplicate loop and the sort compute the canonical list, or refuse a list in which two descriptors share kind and id. |
| ResourceInventory.Idempotent | src/master/runtime-resource-inventory.ts:59-74 | Normalizing a canonical list changes nothing. |
| ResourceInventory.OrderIndependent | src/master/runtime-resource-inventory.ts:59-74 | The order of reporting makes no difference, neither to the list nor to the refusal. |
| ResourceInventory.CanonicalMeans | src/master/runtime-resource-inventory.ts:69-73 | Two lists without duplicates have one canonical form if and only if they hold the same resources. |
| ResourceInventory.HashMeans | src/master/runtime-resource-inventory.ts:161-179 | Two inventories have one hash if and only if they have one affinity and the same resources. |
| ResourceInventory.FinalizeCapturing | src/master/runtime-resource-inventory.ts:224-258 | Finalizing a capturing inventory succeeds if and only if the list is not empty and has no duplicate, and the result holds exactly those resources. |
| ResourceInventory.FinalizeReady | src/master/runtime-resource-inventory.ts:246-250 | A ready inventory finalizes again if and only if it is given the resources it has, and then does not change. |
| ResourceInventory.RecoverResources | src/master/deployment-service.ts:811-852 | The recovery loop builds the captured list with what was planned and not reported. |
| ResourceInventory.RecoveryMatchesInstall | src/master/deployment-service.ts:604-630 | Once every planned replica has reported, recovery finalizes as the install does if and only if the captured list does not hold the ingress under another description. |

## Left out

- Object identity in the awaiting classes: the publisher's masters, the recovery pass, the runtime service and the two locks are
  state machines over values; their fields are the components of the state.
- Routes: agent restarts (a restarted agent holds no table), changes of a node's address, `publishOnce`, the HTTP client and its
  authentication. A database error ends the process of its master, whose supervisor may restart it at any time or never; the
  periodic mark of a master that lives is one of the marks it may make at any time.
- RoutePublisher.QuietCoversMarks: covers nodes that have been targets since the marked version; a node that joins later is
  reached by the pass of the write that adds it.
- Boot recovery: `restartContainer`, which never touches the record; failed reads and writes of the record file, which are
  logged, a failed read passing for a missing record; Docker calls that take effect after the agent that made them has died; and
  why an inspected container may not be started (broker, network and label checks), which is an arbitrary refusal.
- Local runtimes: image digests and driver evidence are folded into one document, a container is present or absent rather than
  running or stopped, and networks, staged artifacts and broker sockets are not part of this model.
- Usage: conversion to hours and gibibytes, which only scales, and workspace totals, which sum the rows.
- Archives: member names stay bytes, so two names that decode to the same replacement characters count as different; the image
  user; kinds of failure that differ in wording only; layer contents, which the code does not read either.
- JSON: the numeric value of a number, which is kept as its spelling; the depth at which recursion overflows; inherited
  properties that a `__proto__` member adds; error positions; and that JavaScript enumerates integer-like names first: the
  canonical laws hold for any total order of names.
- UsageDay.LateEventsChangeLegacy: takes one document for each app, as the unique index on app ids makes it
  (`src/master/repositories.ts:63`).
- Upgrades: a reinstall, which replaces the record and with it starts a new history; request and response bodies beyond image
  and strategy, security profiles, and the read back of a record that another process removed, which is one of the arbitrary
  outcomes of saving.
- Scheduling and quotas: quota totals, which do not hold over runs because provisioning rows count without replicas.
- Inventories: schema validation, affinity checks and dates. The sort key is any order that separates different descriptors, and
  ids hold no NUL.
- Routing of requests, terminals, logs, files, cryptographic verification, configuration, installer and setup, which would add
  easy members only.
