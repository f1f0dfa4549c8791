# Voice provisioning: a verified model

This project models the parts of the voice platform whose correctness is hard to see from one
function at a time, and proves properties of them with Dafny 4.11. `dafny verify dfyconfig.toml`
checks all of it.

**The PBX reconciler.** FusionPBX is provisioned by writing directly to its database. The client's
methods are single transactions over linked tables of domains, extensions, voicemail boxes,
dialplans, settings, queues, agents and tiers; `reconcile_voice` drives a tenant's share of them
towards the desired models through many separately committed calls.

| File | Contents |
|---|---|
| `Names.dfy` | validation of domains and dial tokens, dialplan and room names |
| `Indexed.dfy`, `Sets.dfy`, `Text.dfy` | tables seen through a unique key, fresh identifiers, character classes |
| `Tables.dfy` | rows, well-formedness, the view a database shows, rows of other tenants |
| `Steps.dfy`, `Transactions.dfy`, `CallCenter.dfy` | the statements and transactions on working copies of the tables |
| `Ivr.dfy`, `Dialplans.dfy` | the digit map compiled to nested text, read back and evaluated; rendered dialplans and what they say when read |
| `Client.dfy` | `FusionpbxClient`: tables, reloads and ESL commands as fields, an arbitrary outage schedule |
| `Runtime.dfy`, `QueueRuns.dfy`, `Restart.dfy` | the call-center runtime and its rebuild; arbitrary sequences of queue calls, and a restart after them |
| `QueueEffects.dfy` | what the commands of one `ensure_queue` do to the runtime |
| `Models.dfy`, `EndState.dfy`, `Progress.dfy` | desired state, being settled; what a customer finds on the PBX, told from the raw rows; what every stretch of a run keeps |
| `Orders.dfy`, `Scripts.dfy`, `Fates.dfy` | sorted orders, the calls of a whole run, and what a prefix of them has done |
| `Reconcile.dfy`, `Voice.dfy` | the loops of `reconcile_voice`, and the whole run |
| `Outcomes.dfy`, `Removal.dfy`, `Collisions.dfy`, `Counterexamples.dfy` | convergence, idempotence, failure and retry, neighbours; taking a customer off; numbers with two owners; concrete runs that go wrong |
| `Rows.dfy`, `Intents.dfy`, `Recovery.dfy`, `Provisioning.dfy` | desired-state rows, API writes, runtime resyncs of many domains, all tenants on one PBX |
| `Ledger.dfy`, `History.dfy` | what a sequence of calls asks for, field by field; whole histories of the API |

**Protocols.** `RefreshTokens.dfy` (rotation with reuse detection), `Lockout.dfy`, `SlidingWindow.dfy`
(Redis limiter), `Webhooks.dfy` (retries and sweeps), `WebSockets.dfy` (registry and fan-out between nodes).

**Pure pieces.** `Settings.dfy` (acceptance, storing and reading back), `DialPolicy.dfy`.

How the reconciler is read: a client holds `outage`, an arbitrary function that says which of its
calls find the database unreachable, so every statement about a run is a statement about a failure
at any call or at none. Database rows are known by uuid; a `View` forgets uuids and secrets.
`Advanced` is what every state of a run satisfies with respect to its start, `Ran` that its calls are a
prefix of a script fixed at the start, `Settled` what it means to match the models, `Project` a tenant's share
of the PBX and `Desired` the share its models ask for; `InService` says what that share does for callers,
read back from the rows. A share is read among the domains `names` of one PBX:
a number is a domain's own (`Mine`) when no longer domain can read the same text as one of its numbers.
`World` is the invariant of the application as a whole: a stored `synced` status is never a lie.

What the proofs found the code to do:

- A reconcile whose first outage hits the `delete_voicemail` of a number strands that number's box, and
  no later run removes it while the number stays undesired. `Outcomes.StrandedIff` says exactly when,
  `Counterexamples.StrandedBox` is such a run.
- Tenants are isolated as long as each dialplan number has one owner among the domains of the PBX: numbers
  without a hyphen always do, and all numbers do where no domain continues another by a hyphen. Other numbers
  can be two tenants' at once (`Names.NamesCollideIff`, `Collisions.SharedNumberFights`), who then overwrite
  each other in every round (`Collisions.OverwriteEachOther`). Conference rooms merge on a wider condition
  (`Names.RoomsMergeIff`).
- Deprovisioning drops the customer whatever the status of its last reconcile, so what an outage leaves on the
  PBX stays there (`Counterexamples.LeftBehind`); something is left exactly when the first outage comes no later
  than the last removing call (`Removal.LeftBehindIff`, for voicemail boxes `Removal.BoxesLeftIff`).
- An agent that joins a queue in the call that also changes its strategy, or drops another agent, is announced
  while the queue is unloaded, and the runtime refuses its tier (`QueueEffects.EnsureQueueAccepted`,
  `Counterexamples.RefusedTier`, under the runtime model of `Runtime.dfy`).
- A worker with a stale copy can set a delivery's counter back, and a delivered row can end failed, by `deliver`
  or by two overlapping sweeps (`Webhooks.AttemptsCanDrop`, `DeliveredCanFail`, `SweepsCanFail`). Exactly when:
  `Webhooks.StepSteadyIff`; what would prevent it: `Webhooks.DisciplinedSteady`.
- `resolve_value` lets the error for a missing row through, since it catches another exception type than
  the lookup raises, and it reads deleted settings like active ones (`Settings.DomainSettings.ResolveValue`,
  `Settings.ResolveIsSafe`).
- The number dialled can be judged otherwise than the number checked, when a dash hides a leading plus or breaks
  the support name (`DialPolicy.CleaningIsIgnoredIff`, `DashBeforePlus`, `DashInSupport`).

## Model

| member | source | states |
|---|---|---|
| `Names.NameInjectiveInDomain` | app/services/fusionpbx/client.py:224-232 | within one domain the dialplan name determines kind and number, whatever characters the number holds |
| `Names.NotRouting` | app/services/fusionpbx/client.py:224-232 | no feature or queue name equals the shared routing dialplan name |
| `Names.NamesCollideIff` | app/services/fusionpbx/client.py:202-232 | for two different valid domains some valid numbers give one shared name exactly when one domain continues the other by a hyphen and dial-token characters |
| `Names.NameInjectiveHyphenFree` | app/services/fusionpbx/client.py:224-232 | for numbers without a hyphen the name determines kind, domain and number, for domains of any shape |
| `Names.OneOwner` | app/services/fusionpbx/client.py:224-232 | among the domains of one PBX, a name built from a number that no longer domain reads as its own determines kind, domain and number |
| `Names.ApartMine` | app/services/fusionpbx/client.py:202-232 | all numbers are such in a domain that no other one continues by a hyphen |
| `Names.HyphenFreeMine` | app/services/fusionpbx/client.py:202-232 | numbers without a hyphen are such in every domain |
| `Names.RoomsMergeIff` | app/services/fusionpbx/client.py:241-245 | two customers' conference rooms can merge exactly when one domain continues the other after a hyphen, dots included |
| `Names.RoomsMergeWithoutNameClash` | app/services/fusionpbx/client.py:241-245 | concrete domains whose rooms merge although no dialplan name can be shared |
| `IvrText.BuildTarget` | app/services/fusionpbx/client.py:1344-1352 | the loop builds the nested text from the last entry outwards |
| `IvrText.ReadPrinted` | app/services/fusionpbx/client.py:1348-1352 | the printed expression reads back unambiguously, whatever follows it |
| `IvrText.PatternIsExact` | app/services/fusionpbx/client.py:1346-1347 | the generated pattern accepts exactly the mapped digits |
| `IvrText.CompilationPreservesMeaning` | app/services/fusionpbx/client.py:1338-1352 | for every valid digit map the escaped text parses with nothing left over, the pattern accepts exactly the mapped digits, and each leads to its own target |
| `IvrText.EscapeRoundTrip` | app/services/fusionpbx/client.py:220-221 | attribute escaping loses nothing |
| `Dialplans.CutJoined` | app/services/fusionpbx/client.py:696-697 | cutting the joined dial string at its separator gives back the pieces |
| `Dialplans.RingSays` | app/services/fusionpbx/client.py:676-712 | a rendered ring group reads back as its members in order, at once or in turn, with its timeout |
| `Dialplans.RingsAlikeIff` | app/services/fusionpbx/client.py:676-712 | one dialplan is read as two ring groups only when members, order and timeout agree and, for two or more members, the way to ring does |
| `Dialplans.IvrSays` | app/services/fusionpbx/client.py:1325-1366 | a rendered IVR accepts exactly its digits, sends each to its target and plays its greeting, read from the escaped text |
| `Dialplans.IvrsAlikeIff` | app/services/fusionpbx/client.py:1325-1366 | one dialplan is read as two IVRs only when digits, targets and greeting agree |
| `Tables.ShowsOnlyOne` | app/services/fusionpbx/client.py:53-182 | a database shows exactly one view, so statements about views are statements about tables |
| `Steps.EnsureDomainRow` | app/services/fusionpbx/client.py:331-345 | the domain row is found or inserted; nothing else changes |
| `Steps.EnsureDialplanRow` | app/services/fusionpbx/client.py:591-636 | the public row of that name gets the XML, an existing row keeps its tag, and it reports a change exactly when there was one |
| `Transactions.EnsureExtensionRow` | app/services/fusionpbx/client.py:463-528 | create or refresh: only this extension changes, every existing secret and uuid stays, and the write is reported exactly when names changed |
| `Transactions.DropExtensionRows` | app/services/fusionpbx/client.py:1403-1416 | only the rows of this number of this domain go |
| `CallCenter.RemoveTiers` | app/services/fusionpbx/client.py:921-956 | tiers of unrequested agents go, and with its last tier an agent; tiers keep pointing to existing rows |
| `CallCenter.AddAgents` | app/services/fusionpbx/client.py:958-1003 | missing agents and tiers are added, once each: every new agent row has the contact user/agent@domain and every new tier level and position one, and what is announced is exactly the new rows and missing tiers, in the requested order |
| `CallCenter.SetAgents` | app/services/fusionpbx/client.py:921-1003 | the queue ends with exactly the requested agents; other queues, domains and logins of agents stay; no new orphaned agent |
| `CallCenter.EnsureQueueRows` | app/services/fusionpbx/client.py:878-1030 | the whole transaction: exact new view, fitting new rows of every table, a change is reported exactly when the view changed, and a settled queue yields no command |
| `CallCenter.RemoveQueue` | app/services/fusionpbx/client.py:1099-1142 | the queue goes with its tiers and the agents only it used |
| `Client.FusionpbxClient.ListExtensions` | app/services/fusionpbx/client.py:405-434 | the numbers with a row in that domain, or an error; nothing changes |
| `Client.FusionpbxClient.CreateExtension` | app/services/fusionpbx/client.py:436-542 | rejects bad arguments before the database, else commits or reports unavailable; exact new view, all three names of the row are the display name, one reload exactly when names changed, returns the row's own secret |
| `Client.FusionpbxClient.DeleteExtension` | app/services/fusionpbx/client.py:1388-1419 | removes exactly that extension and reports whether it was there |
| `Client.FusionpbxClient.EnsureVoicemail` | app/services/fusionpbx/client.py:544-589 | an existing box is left alone, a missing one is created |
| `Client.FusionpbxClient.DeleteVoicemail` | app/services/fusionpbx/client.py:1065-1085 | removes exactly that box |
| `Client.FusionpbxClient.CreateConference` | app/services/fusionpbx/client.py:638-674 | the domain's conference dialplan leads into its room; its row has its number and order; reload exactly when a dialplan changed |
| `Client.FusionpbxClient.CreateRingGroup` | app/services/fusionpbx/client.py:676-730 | the same for ring groups: cut at the separator of the strategy, the stored bridge is user/member@domain for each member in order; empty or invalid members are rejected |
| `Client.FusionpbxClient.CreateIvr` | app/services/fusionpbx/client.py:1325-1386 | the same for IVRs: the stored target reads back as one expression that sends each mapped digit to its own target, the stored pattern accepts exactly those digits, and the stored greeting unescapes to the given one |
| `Client.FusionpbxClient.EnsureRouting` | app/services/fusionpbx/client.py:732-799 | the shared routing dialplan holds the XML of this call |
| `Client.FusionpbxClient.EnsureSwitchSettings` | app/services/fusionpbx/client.py:801-848 | the voicemail directory of the switch is the fixed one |
| `Client.FusionpbxClient.EnsureQueue` | app/services/fusionpbx/client.py:850-1046 | exact view, exactly the requested agents, fitting new rows (contacts, tiers, names, dialplan order), other queues untouched, no new orphan, and the exact command list: load when new, unload and load around the rest when strategy or a lost agent demands it, nothing when the queue was already so |
| `Client.FusionpbxClient.DeleteDialplan` | app/services/fusionpbx/client.py:1048-1063 | removes the public rows of that name only; every other row of every table stays |
| `Client.FusionpbxClient.DeleteQueue` | app/services/fusionpbx/client.py:1087-1157 | removes the queue and its dialplan, one unload command exactly when something went; nothing at all for a domain without a row |
| `Client.FusionpbxClient.ListManagedDialplans` | app/services/fusionpbx/client.py:1159-1173 | the public names tagged as features of this domain |
| `Client.FusionpbxClient.ListQueues` | app/services/fusionpbx/client.py:1175-1190 | the queue numbers of this domain |
| `Client.FusionpbxClient.ResyncQueues` | app/services/fusionpbx/client.py:1192-1242 | sends a command list that any runtime accepts and that adds exactly the domain's queues, agents and tiers |
| `Runtime.ResyncCommands` | app/services/fusionpbx/client.py:1201-1235 | the three loops, for every well-formed database: no tier is added before its queue and agent |
| `Runtime.RebuildsFromNothing` | app/services/fusionpbx/client.py:1192-1196 | on an empty runtime the list is accepted in order and rebuilds exactly the domain's part |
| `Runtime.ReplayTwice` | app/services/fusionpbx/client.py:1192-1196 | running it again on any runtime changes nothing more |
| `QueueEffects.EnsureQueueAccepted` | app/services/fusionpbx/client.py:888-1038 | a runtime that holds the domain's rows accepts all commands of an ensure_queue exactly when nobody joins the queue while it is unloaded for a reload; what it holds afterwards, in both cases: no tier less, and the new tiers unless there was a reload |
| `QueueRuns.Call` | app/services/fusionpbx/client.py:850-1157 | one call of either kind: all or nothing, only its own queue's row and tiers change |
| `QueueRuns.RunQueueOps` | app/services/fusionpbx/client.py:850-1157 | over any sequence of ensure and delete calls, any domains, any outages: tables well formed, agents without orphans are exactly those with a tier, the view is the effect of the calls that got through, and each queue of it is as the last of them left it |
| `QueueRuns.LastCallDecides` | app/services/fusionpbx/client.py:850-1157 | each queue is as its last successful call left it; queues never called are untouched |
| `Restart.ViewStaffs` | app/services/fusionpbx/client.py:1192-1242 | the domain's runtime image holds for each queue exactly its agents, each under its own contact, at level and position one |
| `Restart.RunThenRestart` | app/services/fusionpbx/client.py:850-1242 | any ensure and delete calls, then an empty runtime and a resync: all commands are accepted, and each queue is staffed by exactly the agents its last call asked for, at the contacts and tiers announced then, or is absent when that call deleted it |
| `Reconcile.ComputeDelta` | app/services/reconcile/voice.py:28-43 | deleting and creating as the delta says turns the actual numbers into the desired ones |
| `Reconcile.ApplyExtensions` | app/services/reconcile/voice.py:95-102 | after the loop every desired extension has its names; settled ones cost nothing; its calls are the sorted numbers in turn |
| `Reconcile.DropStale` | app/services/reconcile/voice.py:105-108 | all stale extensions and boxes are gone, in sorted order, or the loop stopped at the call that met an outage |
| `Reconcile.ApplyVoicemail` | app/services/reconcile/voice.py:112-116 | each desired extension has a box exactly when its model says so |
| `Reconcile.ApplyShared` | app/services/reconcile/voice.py:122-125 | switch and routing rows are as wanted |
| `Reconcile.ApplyKind` | app/services/reconcile/voice.py:130-158 | every wanted dialplan of the kind is right, the collected names are theirs, nothing settled is lost |
| `Reconcile.DropDrift` | app/services/reconcile/voice.py:159-160 | exactly the drifted dialplans go, one call each |
| `Reconcile.ApplyQueues` | app/services/reconcile/voice.py:162-173 | every wanted queue has its strategy, agents and dialplan |
| `Reconcile.DropQueues` | app/services/reconcile/voice.py:174-175 | the unwanted queues go, the wanted stay as they are |
| `Voice.SyncExtensions` | app/services/reconcile/voice.py:87-108 | lists, creates and deletes: synced extensions, dialplans and queues untouched, the calls made a prefix of the script |
| `Voice.SyncActive` | app/services/reconcile/voice.py:110-175 | the branch of an active customer ends settled and touches nothing when it was |
| `Voice.SyncSuspended` | app/services/reconcile/voice.py:176-183 | the branch of a suspended customer leaves no feature entry point |
| `Voice.ReconcileVoice` | app/services/reconcile/voice.py:46-195 | one run with any outage schedule: tables well formed, other customers' rows and desired logins kept, only dialplan rows of wanted, marked or listed names written, every state between start and goal; the calls made are a prefix of a script fixed at the start, all of it exactly when synced; settled when synced, quiet when it was settled |
| `Outcomes.SettledIff` | app/services/reconcile/voice.py:76-185 | a PBX is settled exactly when the tenant's extensions, own dialplans and queues equal those computed from its models |
| `Outcomes.ConvergesIff` | app/services/reconcile/voice.py:76-185 | a synced run from any PBX ends with exactly the desired share exactly when every undesired dialplan under the domain's own names was marked as its feature or belonged to a queue that is listed; extensions and queues are exact in any case |
| `Outcomes.Converges` | app/services/reconcile/voice.py:76-185 | so it does from every PBX whose dialplans are in order, boxes and shared rows included, whatever other domains live on it; and it then provides, read back from its rows, what the lists of a valid model name |
| `Outcomes.DesiredProvides` | app/services/reconcile/voice.py:76-185 | a PBX with the desired share has exactly the wanted extensions under their names, each ring group offering its members, each IVR sending its digits to their targets, each conference its room, each queue its agents and strategy, and nothing besides |
| `Outcomes.DesiredServes` | app/services/reconcile/voice.py:76-185 | for an active customer that with its voicemail boxes; for a suspended one no extension, queue or dialplan at all |
| `Outcomes.SecondRunIsQuiet` | app/services/reconcile/voice.py:95-183 | a run right after a synced one changes no row, reloads nothing, sends nothing |
| `Outcomes.NoOutageForTenant` | app/services/reconcile/voice.py:89-175 | no desired extension, dialplan, queue or box that was there is missing after a run or a cut, and logins survive |
| `Outcomes.DesiredStays` | app/services/reconcile/voice.py:89-183 | once as desired, no run and no cut moves the share or its boxes |
| `Outcomes.RunCalls` | app/services/reconcile/voice.py:84-189 | the view after a run is the effect of the first calls of its script, up to the first outage; it is synced exactly when none of the script's calls meets one |
| `Outcomes.StrandedIff` | app/services/reconcile/voice.py:105-108 | a run strands the voicemail box of a number exactly when its first outage hits the delete_voicemail of that number, known by its place in the sorted order, and the number has a box; it strands no second one |
| `Outcomes.BoxOfNeither` | app/services/reconcile/voice.py:105-108 | the box of an undesired number without an extension survives every run and every cut, so a stranded box stays while its number is undesired |
| `Outcomes.RetriesConverge` | app/services/reconcile/voice.py:84-195 | any number of runs that fail or not, and then a synced one, reach the share of a clean run, which provides what a valid model names; boxes of undesired numbers differ by the union of the stranded ones alone |
| `Outcomes.RetryConverges` | app/services/reconcile/voice.py:84-195 | in particular for one failed run, where the boxes differ by the stranded one |
| `Outcomes.NeighbourRowsKept` | app/services/fusionpbx/client.py:224-238 | a run whose numbers have one owner leaves every row of every other tenant, dialplans included |
| `Outcomes.NeighbourSeesNothing` | app/services/reconcile/voice.py:89-183 | such a run leaves the share, the marks and the boxes of every other tenant |
| `Outcomes.OrderlyStays` | app/services/fusionpbx/client.py:606-636 | every run of every tenant keeps the dialplans of all in order: marked by their owner, queue dialplans with their queue |
| `Outcomes.IsolatedHyphenFree` | app/services/fusionpbx/client.py:224-245 | for numbers without a hyphen and any two domains, one's run leaves the other's rows and dialplans |
| `Outcomes.IsolatedApart` | app/services/fusionpbx/client.py:224-245 | the same for all numbers when neither domain continues the other by a hyphen |
| `Collisions.NeverBothIff` | app/services/fusionpbx/client.py:224-232 | two tenants' conferences exclude each other on every PBX exactly when their dialplans share a name |
| `Collisions.SharedNumberFights` | app/services/fusionpbx/client.py:202-232 | every number that is not its domain's alone has a possible neighbour whose conference excludes it |
| `Collisions.CollidingTenantsFight` | app/services/fusionpbx/client.py:224-232 | two tenants of which one continues the other by a hyphen can hold desired states that no PBX state settles at once |
| `Collisions.OverwriteEachOther` | app/services/reconcile/voice.py:130-160 | reconciled in turn without any outage, each of their runs is synced and takes from the other what the run before gave it, for as many rounds as one likes |
| `Counterexamples.StrandedBox` | app/services/reconcile/voice.py:105-108 | a concrete run: the third call fails, the next run is synced, and the deleted number still has its box |
| `Removal.LeftBehindIff` | app/services/reconcile/voice.py:84-175 | a run towards nothing leaves extensions, dialplans or queues of the tenant exactly when its first outage comes no later than its last removing call, a number computed from the share before the run |
| `Removal.BoxesLeftIff` | app/services/reconcile/voice.py:105-108 | such a run leaves a voicemail box exactly when there was one without an extension, or the first outage comes no later than the delete_voicemail of a number that has one |
| `Counterexamples.LeftBehind` | app/api/provisioning.py:134-158 | a concrete deprovisioning: the first call fails, the customer is gone from the application and its extension is still on the PBX |
| `Counterexamples.RefusedTier` | app/services/fusionpbx/client.py:1025-1038 | a concrete call: agent 2 joins a queue whose strategy changes, the tables then hold both agents, and a runtime that mirrored them has refused the new tier |
| `Rows.Upsert` | app/api/voice_features.py:60-71 | the row of this number gets the fields, others stay |
| `Rows.Delete` | app/api/voice_features.py:74-83 | the row of this number goes, if any |
| `Rows.Replace` | app/api/voice_features.py:272-283 | the domain's rows are exactly the intents, the last entry per number winning; other domains stay |
| `Rows.LastEntryWins` | app/api/voice_features.py:282-283 | what that means, entry by entry |
| `Intents.PutExtensions` | app/api/provisioning.py:64-91 | unlisted extensions go, listed ones are renamed and keep their voicemail setting, new ones get it switched on |
| `Intents.Edit` | app/api/voice_features.py:60-83 | every handler's edit turns the model into the intended one, stores the recording and activity flags it carries and no other, and leaves every other customer's alone |
| `Intents.IntendedValid` | app/api/voice_features.py:86-161 | validated payloads keep the desired state valid, so reconcile never raises a bad request |
| `Intents.AddDomain` | app/api/provisioning.py:51-59 | a new row: active, nothing desired |
| `Intents.ClearModels` | app/api/provisioning.py:148-153 | deprovisioning empties the models and forces the active path |
| `Provisioning.RunKeepsOthers` | app/api/provisioning.py:182-195 | a run for one domain keeps the guarantees of all others, of any domain names |
| `Provisioning.RolledBack` | app/api/provisioning.py:174-178 | so it does when the request then fails and the store is rolled back |
| `Provisioning.VoiceApi.Sync` | app/api/voice_features.py:54-57 | reconcile and commit: the stored synced status is true of the PBX |
| `Provisioning.VoiceApi.Handle` | app/api/provisioning.py:44-131 | one write of any kind whose numbers have one owner: refused as a whole unless it is valid and fits an account, else committed with the intended desired state and the run's status, which without outages is synced; a synced answer means the customer is in service as its stored rows say; no other account changes |
| `Provisioning.VoiceApi.Deprovision` | app/api/provisioning.py:134-158 | the account goes whatever the run did; something of its share is left on the PBX exactly when an outage came no later than the last removing call, and what boxes are left is known in the same way |
| `Provisioning.VoiceApi.ResyncDomain` | app/api/provisioning.py:161-179 | desired state re-applied and, for an active customer, the commands that rebuild its runtime sent within this call; or everything rolled back, when the runtime resync met an outage |
| `Provisioning.VoiceApi.ResyncAll` | app/api/provisioning.py:182-195 | it succeeds exactly when no runtime resync met an outage, and then for every active domain some stretch of the commands sent by this call is accepted by any runtime and adds the domain's queues, agents and tiers; otherwise the store is as before; without an outage every customer ends synced |
| `Recovery.OthersRuntime` | app/services/fusionpbx/client.py:1192-1242 | work on another domain leaves what the tables ask of this one's runtime |
| `Provisioning.HyphenFreeFits` | app/services/fusionpbx/client.py:202-232 | with customers of any names, every write whose numbers hold no hyphen is covered |
| `Provisioning.ApartFits` | app/services/fusionpbx/client.py:202-232 | among domains of which none continues another by a hyphen, every write is covered |
| `History.RunApi` | app/api/provisioning.py:44-195 | over every history of writes, deprovisionings and resyncs, with numbers that have one owner: each customer's desired state is the book of its calls, domain, flags, features and extensions each as the last committed call about them said; its status is the last answer; whoever was last synced is in service accordingly, whatever others did; without outages no call fails and everybody stays synced |
| `Ledger.BookRestarts` | app/api/provisioning.py:134-158 | what came before a customer's deprovisioning no longer matters |
| `Ledger.LastIntentWins` | app/api/voice_features.py:60-83 | per kind and number the last committed write that speaks about it since the last deprovisioning decides |
| `Ledger.LastListingWins` | app/api/provisioning.py:64-91 | extensions follow the last listing; the voicemail setting survives while listed |
| `Ledger.LastFlagsWin` | app/api/provisioning.py:44-131 | recording is what the last committed put_domain said, off without one; activity what the last committed suspension or resumption said; both since the last deprovisioning |
| `History.SuspendAndResume` | app/api/provisioning.py:98-131 | with any calls about other customers between and after: a synced suspension leaves nothing of the share on the PBX, a synced resumption exactly the share, and the service, of the models before; without outages both are synced |
| `RefreshTokens.AuthFlow.IssueTokens` | app/services/auth_flow.py:945-970 | a new session under a fresh token |
| `RefreshTokens.AuthFlow.Refresh` | app/services/auth_flow.py:695-755 | exchange, expiry, reuse detection or rejection, each exactly when the sessions say so, with the exact new state |
| `RefreshTokens.AuthFlow.Logout` | app/services/auth_flow.py:768-781 | revokes the session whose current token this is, expired ones too |
| `RefreshTokens.AuthFlow.RevokeForPerson` | app/services/auth_flow.py:419-442 | afterwards no session of the person but the excluded one is live; the excluded one, those of others and those already ended are untouched; returns how many were ended |
| `RefreshTokens.RunRequests` | app/services/auth_flow.py:695-781 | over every run each token is exchanged at most once, the token just replaced is always caught when presented again, the newest one is always honoured or expired, and no token is accepted of a session that was reused, logged out, expired, or ended by a password change |
| `Lockout.UserCredential.Login` | app/services/auth_flow.py:554-577 | one attempt: a locked credential is not looked at, a wrong password counts and from the fifth locks for 15 min, success clears counter and lock |
| `Lockout.OutcomesDecide` | app/services/auth_flow.py:554-577 | for a credential that starts unlocked, told by the outcomes alone: an attempt is refused unseen exactly when five wrong passwords came since the last success and the last of them is less than 15 min old; otherwise the password decides |
| `Lockout.LockoutBound` | app/services/auth_flow.py:554-577 | in any span of t without a successful login at most 5 + t / 15 min wrong passwords are verified, from any state |
| `Lockout.RunLogins` | app/services/auth_flow.py:554-577 | so on every run of logins of one credential, between any two that enclose no success; and from an unlocked start each outcome is decided by those before it |
| `Lockout.BoundIsTight` | app/services/auth_flow.py:559-563 | the bound is reached |
| `SlidingWindow.SortedSet.Eval` | app/middleware/rate_limit.py:43-53 | the pruned, expiring set refuses exactly when the complete history fills the window, and never loses an entry that counts |
| `SlidingWindow.RunRequests` | app/middleware/rate_limit.py:43-53 | over any run every window of that length holds at most the allowed number of grants |
| `SlidingWindow.LimitedPathsFailClosed` | app/middleware/rate_limit.py:27-38 | every limited path is an auth path, so a Redis failure refuses |
| `SlidingWindow.Dispatch` | app/middleware/rate_limit.py:132-215 | the decision for each request under the limit and window of its path, limited or not, Redis up or down |
| `Webhooks.WebhookDelivery.Attempt` | app/services/webhooks/delivery.py:32-86 | one attempt: counter, status and error columns |
| `Webhooks.RunSound` | app/tasks/webhook_deliver.py:15-65 | in every interleaving of workers with stale copies a pending row has attempts left and no row returns to pending |
| `Webhooks.AttemptsCanDrop` | app/services/webhooks/delivery.py:65-83 | concrete interleaving in which the counter goes back, below the limit on a failed row |
| `Webhooks.DeliveredCanFail` | app/tasks/webhook_deliver.py:28-38 | a delivered row handed to deliver again is posted again and can end failed |
| `Webhooks.SweepsCanFail` | app/services/webhooks/delivery.py:89-109 | two sweeps that picked the same pending row do it too |
| `Webhooks.StepSteadyIff` | app/services/webhooks/delivery.py:65-83 | a step keeps every counter and every delivery exactly when each copy it writes back is at most one attempt behind and not the last, unsuccessful one of a row delivered meanwhile |
| `Webhooks.DisciplinedSteady` | app/tasks/webhook_deliver.py:15-65 | over every run in which no two open jobs hold one row and only pending rows are loaded, counters never drop and deliveries are final |
| `Webhooks.DeliveryTable.SweepDeliveries` | app/services/webhooks/delivery.py:89-109 | attempts each of the oldest pending rows, up to the limit, once |
| `Webhooks.NotStarved` | app/services/webhooks/delivery.py:99-104 | a pending row at oldest-first position p is attempted within p / limit + 1 sweeps whatever arrives |
| `Webhooks.SweepDrains` | app/services/webhooks/delivery.py:106-108 | each attempted row takes at least one off the sum of remaining attempts |
| `Webhooks.DrainedWithin` | app/services/webhooks/delivery.py:89-109 | a fixed set of rows has nothing pending after as many sweeps as there are attempts left |
| `Webhooks.DisciplinedDrains` | app/tasks/webhook_deliver.py:15-65 | with deliver and sweep interleaved under the same discipline, whatever rows arrive, each committed attempt on a fixed set takes at least one off its remaining attempts, and when those are used up none of its rows is pending |
| `WebSockets.ConnectionManager.Connect` | app/services/websocket_manager.py:126-142 | registers the socket under its person only |
| `WebSockets.ConnectionManager.Disconnect` | app/services/websocket_manager.py:144-152 | removes it and never leaves an empty set |
| `WebSockets.ConnectionManager.SendToLocal` | app/services/websocket_manager.py:159-173 | each open socket of the person gets the message exactly once, dead ones are forgotten |
| `WebSockets.ConnectionManager.BroadcastLocal` | app/services/websocket_manager.py:180-183 | each open local socket gets the message exactly once |
| `WebSockets.ConnectionManager.HandleRedisMessage` | app/services/websocket_manager.py:96-111 | own and malformed messages are ignored, others go to their audience |
| `WebSockets.FanOut` | app/services/websocket_manager.py:96-183 | over every run of nodes and channel no socket receives a message twice, nobody else's socket receives it, and no registry keeps an empty set |
| `Settings.IntThroughText` | app/services/settings_spec.py:360-367 | every integer comes back from its decimal text |
| `Settings.DomainSettings.UpsertByKey` | app/services/domain_settings.py:89-114 | given columns are written, flags only when given; a null flag fails on an existing row; a missing row is created, active unless said otherwise |
| `Settings.DomainSettings.EnsureByKey` | app/services/domain_settings.py:116-144 | an existing setting is left alone |
| `Settings.DomainSettings.ResolveValue` | app/services/settings_spec.py:281-318 | the value of the row, or the error of the lookup exactly when the key has no row |
| `Settings.DomainSettings.Delete` | app/services/domain_settings.py:146-151 | deleting only clears the flag |
| `Settings.DomainSettings.Put` | app/services/settings_api.py:91-100 | the write path: a refused payload and a null flag for an existing row change nothing, each exactly in its case; what is stored reads back as accepted, under the type of its spec and secret when the spec is; other keys stay |
| `Settings.AcceptedIff` | app/services/settings_api.py:15-58 | integers are taken exactly in range, enumerated texts exactly when they name a choice, all other values of the right type as they are |
| `Settings.TextAccepted` | app/services/settings_api.py:15-58 | an integer or truth value given as text is taken as that value |
| `Settings.RoundTrip` | app/services/settings_api.py:15-58 | for every spec and accepted payload, over any earlier row, what is stored reads back as accepted, and only a null flag for an existing row is not stored |
| `Settings.ResolveIsSafe` | app/services/settings_spec.py:281-318 | whatever is stored, an integer resolves in range, an enumerated setting to a choice, or to the default; deleted rows resolve like active ones; a missing row gives an error where the rest of the function would give the default |
| `DialPolicy.PlusDialsIff` | app/services/routing/fraud.py:90-137 | a number in international form is refused exactly when it has no digits, is not in the allowlist, starts with a blocked prefix, or is foreign while that is barred |
| `DialPolicy.DoubleZeroDialsIff` | app/services/routing/fraud.py:90-137 | the same for what follows a double zero |
| `DialPolicy.NationalDialsIff` | app/services/routing/fraud.py:90-137 | a national number is refused exactly for the allowlist or a blocked prefix; up to six digits it is an extension |
| `DialPolicy.PlusIsDoubleZero` | app/services/routing/fraud.py:28-137 | without an allowlist +X and 00X get the same decision for every X |
| `DialPolicy.FormattingIsIgnored` | app/services/routing/fraud.py:28-137 | for starts with a plus or a digit, characters other than digits after the first change nothing |
| `DialPolicy.CleaningIsIgnored` | app/api/calls.py:62-93 | so the number dialled is judged like the number checked |
| `DialPolicy.CleaningIsIgnoredIff` | app/api/calls.py:62-93 | for every destination the number dialled is judged like the number checked, under all policies without an allowlist, exactly when cleaning neither makes nor breaks the support name and brings no plus to the front of a destination with digits |
| `DialPolicy.DashBeforePlus` | app/api/calls.py:62-93 | a family where the second condition fails: a foreign number with a dash before the plus is permitted as a national one, the number dialled would be refused |
| `DialPolicy.DashInSupport` | app/api/calls.py:62-93 | where the first fails: sup-port is refused as invalid, the number dialled is the support name |
| `DialPolicy.CleaningAndAllowlists` | app/api/calls.py:62-93 | with allowlists too, both are judged alike under every policy exactly when trimming alone gives the same text |

## Left out

What the model assumes or does not capture:

- Database rows that break FusionPBX's own rules: two domains of one name, two extensions, boxes or queues of one number in a domain, two public dialplans of one name, tiers that point nowhere.
- Foreign rows under our names: a dialplan marked as a feature of a domain is named as one of its conferences, ring groups or IVRs. For statements about shares (`Orderly`) also: the domain's own feature dialplans carry its mark, a queue dialplan has its queue, and queue numbers are the domain's own. Extension and queue numbers of the PBX are dial tokens; a stored number that is not would make reconcile raise a bad request.
- Columns written as constants or copies (context, caller-id numbers, dial string, insert dates) and the voicemail password that a suspended and resumed customer loses when the box is created anew.
- The XML text of dialplans: known by the values that fill its template, assumed to differ when these do; the IVR expression is modelled as text.
- A commit whose outcome is unknown after the connection is lost: an unavailable call is one that wrote nothing.
- Integrity errors of concurrent inserts, and concurrent reconciles of one customer, which the row lock serializes.
- Loops over unsorted rows and sets take them in any order; the loops over extension numbers are sorted as in the source.
- `ensure_routing` per domain: the row is shared, and the last active domain reconciled decides recording.
- Failing reloads and ESL commands: they are effects in a log, since the source swallows their errors.
- FreeSWITCH itself: the runtime model (loads and adds are idempotent, a tier needs its queue and agent, unloading a queue leaves its tiers) is an assumption.
- `list_domains`, `create_domain`, `list_voicemail_messages`, `check_readiness`, `get_extension_secret`: single reads, or steps already part of other calls.
- `last_reconciled_at`, row timestamps, and the number limit of 32 columns beyond the check of the API.
- A `put_domain` whose name another customer holds ends in an integrity error; the model calls it NameTaken and rolls back.
- Access tokens, MFA, cookies, user agents and addresses in the refresh and login flows; hashing is injective constructors, randomness a parameter; admin edits of sessions and the web login form.
- Redis clock and member names: the script runs at the caller's monotone, non-negative time, members are unique, scores are exact reals.
- Webhooks: the HTTP exchange, signing and payloads are results of an attempt; the retry schedule of the task queue is any interleaving; the bound on waiting takes a sweep as one step and a clock that moves past the waiting row's last update.
- WebSockets: a send loop is one step; the runtime error of a set that changes size while a loop awaits is not modelled, nor the listener's reconnects beyond losing messages.
- Settings: Unicode spaces and digits, the interpreter's limit of 4300 digits, floats; a list or object given where a text has choices raises a type error in the source and is rejected here. Specs are any that satisfy what the table's entries do.
- DialPolicy: Unicode digits, and the originate command.
- Billing, RBAC, audit, CDRs, recordings, trunks, branding, templates, migrations and tests: plain records, plumbing or user interface, which would add only easy members.
- Outcomes.Converges: voicemail boxes are stated as present or absent, not their passwords, which an existing box keeps.
- Outcomes.NeighbourRowsKept: apart from the shared routing and switch rows, as the source has only one of each.
- Provisioning.VoiceApi.Handle: covers writes whose dialplan numbers have one owner among the domains of the PBX (all without a hyphen do); for others the guarantees of two customers exclude each other, see `Collisions`.
- History.RunApi: the same restriction on the numbers of its writes; a deprovisioned customer's leftovers are stated call by call.
- Restart.RunThenRestart: starts from tables whose agents and tiers are as ensure_queue writes them, such as empty ones; rows written otherwise keep their own contacts.
