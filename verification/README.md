# Verified model of the observability suite's control logic

This project models the parts of the repository whose behaviour is decided by state and
by data rather than by I/O, and proves what each part is for. Every module below is one
component of the program. A component is described by functions over values (its
specification); the code that works step by step, in loops or on objects, is written as
methods and classes and proved equal to those functions; and the properties are lemmas
about them, stated for every input, every run or every reachable state.

| component | modules | what is proved |
|---|---|---|
| configuration renderer (`configrender`) | `Text`, `YamlLines`, `YamlScalars`, `YamlLens`, `YamlTopLevel`, `YamlMixed`, `YamlMeaning`, `YamlSplice`, `SyncPolicy`, `SyncPolicyLaws`, `SyncDisable`, `Json`, `JsonKeys`, `JsonPatch`, `JsonText`, `JsonLocators`, `RenderOps`, `RenderPlan`, `RenderLaws`, `RenderHolds`, `RenderMeaning`, `RenderRecords`, `RenderDocuments`, `RenderRun`, `Drift`, `Rollback`, `UnifiedLeaves`, `PathRules` | lens laws of the line editor, lifted through the fold over patches to render idempotence, drift agreement and exact rollback of a file tree; every rendered place reads back the value of the document |
| answer-file validator (`install/contract.py`) | `SchemaValidator`, `SchemaLaws`, `SchemaMeaning`, `SchemaValues`, `SchemaReports`, `SchemaFaults`, `SchemaRun` | termination on every schema, the cycle error exactly on endless expansion, soundness and completeness against a satisfaction relation, the exact report and the exact faults of every node |
| install journal (`install/flow.py`) | `InstallFlow`, `InstallLaws` | a skipped step equals its re-execution, over any sequence of installs and lost files |
| event trigger (`airuntime/khook.py`) | `Trigger`, `TriggerLaws`, `TriggerKeys` | the incremental state is the history; coverage and rate of dispatches; which events are one incident |
| approvals and investigations (`airuntime/kagent.py`, `policy.py`) | `Approvals`, `ApprovalLaws`, `ApprovalMeaning`, `ApprovalRun` | protocol safety in every reachable state, every call consented to |
| gateway (`airuntime/gateway.py`, `policy.redact`) | `Redaction`, `RedactionMeaning`, `Heartbeats` | exactly what a response shows; one audit record per outage and recovery |
| tenant lifecycle (`tenancy/tenantctl`) | `Audits`, `Tenants`, `TenantLaws`, `TenantRuns`, `TenantGates`, `TenantService`, `Indented`, `MachineFile`, `MachineLaws`, `MachineProse` | purge safety over whole runs, no destruction without a fresh approval, complete audit, round trip of the machine's contract file |
| navigation catalog (`portal/portalsvc/catalog.py`) | `CatalogFile`, `CatalogLaws`, `CatalogProse`, `CatalogRun` | round trip of the catalog's contract file |
| metering and invoicing (`commercial/commercialsvc`) | `UsageValidation`, `UsageErrors`, `UsageRecords`, `UsageLaws`, `UsageMeaning`, `Invoicing`, `InvoiceLaws`, `InvoiceCharges`, `Ordering` | every built record is valid, ids are distinct exactly when the sources do not repeat, queries and records are conserved, rounding bounds |

`Results` holds the shared `Option` and `Result` types. What the program takes from outside
(hashes, the JSON codec, number texts, regular-expression search, clocks, replies of other
services, directory scope checks) is a parameter, so the theorems hold for any of them; where one
must be well-behaved the predicate is called `Lawful`. The JSON codec's law is that of sorted-key
emission: documents come back with their keys in order. `JsonText` defines the program's own codec,
the canonical text and a parser by RFC 8259, and proves that it meets this law.

`dafny verify dfyconfig.toml` checks the whole project.

## Where the code does not do what it says

Each is a lemma that says exactly when the property holds, with a lemma at an input that
fails.

- **A bare string may end with a newline.** The pattern that admits bare YAML strings ends
  with `$`, which also matches before a final newline. Writing such a value adds a line to
  the file, and repeating the write is not the identity (`YamlLens.RewriteIsIdentityIff`;
  every such value fails, `YamlLens.TrailingNewlineAddsLine`).
- **Setting the sync policy twice is the identity exactly when** a caller finds, in the
  manifest, that the keys of the spec block are read to its end and a content line directly
  follows the lines an enable replaces (`SyncPolicyLaws.EnableTwiceIff`), or that a disable
  leaves the file its final newline and the spec block a key and no second policy
  (`SyncDisable.DisableTwiceIff`).
  The block end swallows trailing blank and comment lines and the file's final newline, although
  the documentation promises to preserve all other bytes (`SyncPolicyLaws.LastBlockFails`).
- **A top-level key written into an indented file hides its other keys:** a dotted scalar of
  the same file still resolves exactly when the key was there or the file starts at column zero
  (`YamlMixed.KeyKeepsScalarIff`). Otherwise a render that succeeded cannot be planned again
  (`YamlMixed.IndentedFileFails`).
- **Reading a scalar and writing it back** restores the line exactly when one blank stands
  between the colon and the value (`YamlScalars.GetPut`, `YamlScalars.TwoBlanksShrink`).
- **A rollback's residual check** passes exactly when the manifest's path is not also an
  artifact with other content (`RenderLaws.ResidualIff`, `RenderLaws.ManifestOnArtifactDiffers`).
- **Files with carriage returns are not refused but rewritten:** reading a file translates its line
  ends before the patcher looks for carriage returns. A file keeps its other bytes exactly when
  it holds none (`YamlLens.AdoptKeepsBytesIff`, `RenderLaws.ReturnsLost`,
  `YamlLens.OtherLineEndsRewritten`).
- **A single-dot segment is not refused.** The rule promises to reject '.' and '..' segments as
  written, but the path parser has dropped single dots before the check sees them
  (`PathRules.RefusesDotsIff`, `PathRules.SingleDotPasses`). An accepted path still lies in a
  surface of its system (`PathRules.AcceptedIsInside`), and outside the read-only tree exactly when
  no surface is above that tree or respells it (`PathRules.StaysOutsideIff`).
- **A burst summary's suppressed count** is the number of events it stands for exactly when
  one event of the window was dispatched on its own; otherwise it is one too few
  (`TriggerLaws.SummaryCountIff`, `TriggerLaws.SummaryMiscounts`).
- **A dispatch that fails is not retried.** The poller says that a failed delivery is retried on
  the next poll, but the event's uid and its incident's last dispatch are recorded before delivery,
  so no later poll makes the envelope again (`TriggerKeys.LostIsNotRetried`).
- **Two incidents are told apart exactly by their five fields** when no field holds the separator
  (`TriggerKeys.KeyIff`); with it inside a field they can share a key (`TriggerKeys.BarsConfuse`).
- **An approved action stays "executing", with no audit record of its outcome,** exactly when
  the gateway's reply is lost or carries an unknown outcome (`ApprovalLaws.StuckIff`,
  `ApprovalLaws.LostReplySticks`), and then for good: later triggers of its correlation id are
  absorbed (`ApprovalLaws.StuckForever`).
- **A tenant transition ends without its audit record** exactly when it has no name or its
  record cannot be written: a destructive transition without its gate, a required field the
  service does not set, or a replayed record without its end (`TenantLaws.UnauditedIff`,
  `TenantLaws.UnrecordedProvision`). An applied one has moved the tenant by then. A contract that asks only
  for fields the service sets, and gates the destructive transitions, never meets this for a
  named transition (`TenantLaws.NeverUnaudited`).
- **The retention window's end is cut to whole seconds:** it is exact only for an offboarding
  at a whole second, and otherwise a purge may come up to one second before the exact end
  (`TenantRuns.RetentionEndMeans`, `TenantRuns.RetentionEndCut`).
- **A further list below a transition's audit fields joins them:** once the fields have begun,
  another key of the audit block does not end them (`MachineProse.AuditBlockIgnoredIff`,
  `MachineProse.LateListJoins`), although multi-line blocks are documented never to be read as
  structure.
- **A built invoice fails its own consistency check** exactly when the tenant id is empty
  (`InvoiceLaws.BuiltConsistentIff`, `InvoiceLaws.NamelessInvoiceFails`).

One documented rule has no counterpart in the code, and the model follows the code: resuming
a tenant does not check that the cause of its suspension is marked resolved
(contracts/tenancy/TENANT_LIFECYCLE_CONTRACT_V1.yaml:186).

## Model

| member | source | states |
|---|---|---|
| Text.SplitJoin | tools/obskit/obskit/configrender/patch.py:94-105 | splitting a text into lines undoes joining them, so the line editor's lists and texts are interchangeable |
| Text.JoinSplit | tools/obskit/obskit/configrender/patch.py:94-105 | joining the lines of a text gives the text back |
| YamlLines.Children | tools/obskit/obskit/configrender/patch.py:125-168 | the scan loop over a block returns its indentation and keys, or the same error, as the recursive description |
| YamlLines.BlockEnd | tools/obskit/obskit/configrender/patch.py:171-179 | the outdent loop finds the end of an entry's block |
| YamlLines.LocateFacts | tools/obskit/obskit/configrender/patch.py:182-214 | a resolved locator names a content line of the range that is a mapping key |
| YamlMeaning.LocateMeans | tools/obskit/obskit/configrender/patch.py:182-214 | a resolved locator names a line whose own key and the keys of the lines it is nested under, told from indentation alone, spell the locator |
| YamlLines.LocateInjective | tools/obskit/obskit/configrender/patch.py:182-214 | two locators that resolve to the same line are the same locator, dotted keys and longest-prefix matching included |
| YamlLines.LocateShape | tools/obskit/obskit/configrender/patch.py:182-214 | resolution, errors included, depends only on each line's indentation, key and being content |
| YamlScalars.RenderedIsPlain | tools/obskit/obskit/configrender/patch.py:67-91 | a rendered value is a scalar the patcher can replace again, if and only if it is not a string that ends with a newline |
| YamlScalars.ReplacedLine | tools/obskit/obskit/configrender/patch.py:217-245 | replacing a scalar keeps the line's indentation, key and trailing comment and puts the new scalar in place |
| YamlScalars.ReplaceTwice | tools/obskit/obskit/configrender/patch.py:217-245 | of two replacements on a line only the second remains |
| YamlScalars.GetPut | tools/obskit/obskit/configrender/patch.py:217-245 | writing back the scalar a line carries restores the line exactly when one blank follows the colon |
| YamlScalars.TwoBlanksShrink | tools/obskit/obskit/configrender/patch.py:217-245 | a line with two blanks after its colon does not get its scalar back unchanged |
| YamlLens.SetYamlScalar | tools/obskit/obskit/configrender/patch.py:248-257 | the in-place edit of the line list gives the text the lens laws speak of, or its error |
| YamlLens.ScalarFrame | tools/obskit/obskit/configrender/patch.py:248-257 | a scalar write changes exactly the located line and keeps the resolution of every locator |
| YamlLens.PutGet | tools/obskit/obskit/configrender/patch.py:248-257 | the written scalar is read back through the same locator |
| YamlLens.PutGetOther | tools/obskit/obskit/configrender/patch.py:248-257 | every other locator reads what it read before, errors included |
| YamlLens.WritableIffReadable | tools/obskit/obskit/configrender/patch.py:217-257 | a locator can be written exactly when it can be read, and otherwise both report the same error |
| YamlLens.PutPut | tools/obskit/obskit/configrender/patch.py:248-257 | a second write through the same locator replaces the first |
| YamlLens.PutsCommute | tools/obskit/obskit/configrender/patch.py:248-257 | writes through different locators commute and neither makes the other fail |
| YamlLens.TrailingNewlineAddsLine | tools/obskit/obskit/configrender/patch.py:67-91 | writing a string that ends with a newline adds a line to the file |
| YamlLens.RewriteIsIdentityIff | tools/obskit/obskit/configrender/patch.py:67-91 | repeating the write of a value is the identity if and only if the value is not a string that ends with a newline |
| YamlLens.AdoptedFacts | tools/obskit/obskit/configrender/patch.py:108-113 | adoption puts the marker first, keeps every other line and is idempotent |
| YamlLens.ScalarKeepsMarker | tools/obskit/obskit/configrender/patch.py:108-113 | no scalar write removes or moves the marker |
| YamlLens.AdoptKeepsBytesIff | tools/obskit/obskit/configrender/patch.py:94-113 | adopting a file, as the renderer reads it, keeps every byte of it exactly when it holds no carriage return; the refusal of carriage returns never meets a file |
| YamlLens.OtherLineEndsRewritten | tools/obskit/obskit/configrender/render.py:102-111 | a file with CRLF line ends is adopted and all its line ends are rewritten |
| YamlTopLevel.SetTopLevelScalar | tools/obskit/obskit/configrender/patch.py:260-281 | the loop that replaces a top-level key, or inserts it after the marker, gives the described text or error |
| YamlTopLevel.TopLevelFrame | tools/obskit/obskit/configrender/patch.py:260-281 | the key's line is replaced, or inserted right after the marker when absent; all other lines stay in order |
| YamlTopLevel.TopLevelLaws | tools/obskit/obskit/configrender/patch.py:260-281 | the top-level key reads back what was written and a second write replaces the first |
| YamlMixed.KeyKeepsScalarIff | tools/obskit/obskit/configrender/patch.py:248-281 | after a top-level key is written, a dotted scalar resolves, and at the same line, if and only if the key was there before or the first content line is at column zero |
| YamlMixed.ReadyCommutes | tools/obskit/obskit/configrender/patch.py:248-281 | on such a file a top-level write and a scalar write commute, errors included |
| YamlMixed.IndentedFileFails | tools/obskit/obskit/configrender/patch.py:248-281 | on an indented file a scalar write and then the key both succeed, and the scalar can no longer be written |
| SyncPolicy.ApplySyncPolicy | tools/obskit/obskit/configrender/patch.py:284-388 | the splicing and deleting of the line list gives the described text, or the same error |
| SyncPolicy.FindSite | tools/obskit/obskit/configrender/patch.py:308-356 | the level-by-level lookups find the spec, sync and automated blocks or report the first failing level |
| YamlMeaning.NavigateMeans | tools/obskit/obskit/configrender/patch.py:284-328 | the sync-policy lookups end at a line keyed spec, one keyed syncPolicy nested in it and one keyed automated nested in that, or say which of the last two its block does not have |
| SyncPolicyLaws.EnableLeavesFixedBlock | tools/obskit/obskit/configrender/patch.py:330-377 | after an enable the automated block is found again and is exactly the fixed three lines, with no other content in it |
| SyncPolicyLaws.EnableKeepsContent | tools/obskit/obskit/configrender/patch.py:330-377 | an enable keeps every content line outside the old automated block, in order; what it removes is that key and deeper lines |
| SyncPolicyLaws.DisableKeepsContent | tools/obskit/obskit/configrender/patch.py:378-388 | a disable keeps every content line outside the automated block, in order, except the key of a sync block with no other child |
| SyncPolicyLaws.DisableRemovesBlock | tools/obskit/obskit/configrender/patch.py:378-388 | on consistently indented manifests no automated key is found after a disable, and a second one changes nothing, or reports the spec block emptied exactly when it held nothing else |
| SyncPolicyLaws.EnableTwiceIff | tools/obskit/obskit/configrender/patch.py:171-179 | a second enable is the identity if and only if, in the file as given, the spec's keys are read to the end and a content line directly follows the lines the edit replaces |
| SyncDisable.DisableTwiceIff | tools/obskit/obskit/configrender/patch.py:378-388 | on every manifest, a second disable is the identity if and only if there is no automated block, or the file keeps its final newline and, where the sync block goes as a whole, other content of the spec block stands before it, or what stands behind it names a key and no other automated policy |
| SyncDisable.PolicySettledIff | tools/obskit/obskit/configrender/patch.py:284-388 | setting either policy again changes nothing exactly on the manifests that meet these conditions, as a caller can check them beforehand |
| SyncPolicyLaws.LastBlockFails | tools/obskit/obskit/configrender/patch.py:284-388 | a manifest whose automated block ends the file: the first edit, enable or disable, takes the final newline and the second is refused |
| JsonPatch.SetGet | tools/obskit/obskit/configrender/patch.py:408-455 | a JSON path can be set exactly when it can be read, and then reads back the value |
| JsonPatch.SetSet | tools/obskit/obskit/configrender/patch.py:408-455 | a second value at the same path replaces the first |
| JsonPatch.SetsCommute | tools/obskit/obskit/configrender/patch.py:408-455 | settings at diverging paths commute and do not affect each other's success |
| JsonLocators.LocatorBack | tools/obskit/obskit/configrender/patch.py:391-405 | a locator written from names and decimal indices is read back as the path of exactly those names and indices |
| JsonText.TextBack | tools/obskit/obskit/emit.py:19-20 | a text comes back from its ASCII escapes, surrogate pairs included |
| JsonText.EmitParse | tools/obskit/obskit/emit.py:19-20 | every document without repeated keys comes back from its canonical text, with the keys of every object in order |
| JsonText.SampleText | tools/obskit/obskit/emit.py:18-19 | the canonical text of a nested document has sorted keys, two blanks a level, closed empty containers and a final newline |
| JsonText.TextCodecLawful | tools/obskit/obskit/configrender/patch.py:408-455 | the program's own codec, for any floats whose texts read back, is one the theorems about rendering ask for |
| JsonKeys.SortAlikeIff | tools/obskit/obskit/emit.py:19-20 | two objects have the same canonical form exactly when every key has values with the same canonical form |
| JsonPatch.SetsAlike | tools/obskit/obskit/configrender/patch.py:408-455 | key order decides neither whether a path can be set nor, up to key order, what the setting gives |
| JsonPatch.PatchTwice | tools/obskit/obskit/configrender/patch.py:408-455 | of two patches of a file's text at the same path only the second matters, whatever the key order of the file |
| JsonPatch.PatchesCommute | tools/obskit/obskit/configrender/patch.py:408-455 | patches of a file's text at diverging paths commute and do not affect each other's success |
| RenderOps.Overwrite | tools/obskit/obskit/configrender/render.py:218-397 | of two patches at the same place of a file, whatever their kind, only the second matters |
| RenderOps.Independence | tools/obskit/obskit/configrender/render.py:218-397 | patches at different places of a file commute and do not affect each other's success, whatever their kind; a scalar and the isolation key on files that keep both |
| RenderOps.Absorb | tools/obskit/obskit/configrender/render.py:494-544 | a patch whose place a later sequence writes leaves no trace in that sequence's result |
| RenderOps.Idempotent | tools/obskit/obskit/configrender/render.py:494-544 | running a sequence of patches of any kinds on its own result changes nothing, on files that keep the isolation key and scalars apart and settle under the sync policy |
| RenderLaws.FileByFile | tools/obskit/obskit/configrender/render.py:494-544 | the fold over all bindings succeeds, and renders what it renders, exactly as each file's own patches do on that file alone |
| RenderLaws.Replan | tools/obskit/obskit/configrender/render.py:470-587 | planning on another tree gives the same plan whenever the trees agree outside the written files and each file's patches give the planned text |
| RenderLaws.PlanFacts | tools/obskit/obskit/configrender/render.py:525-587 | the plan's artifacts are exactly the files some binding wrote, each with its final text |
| RenderLaws.ExecuteFacts | tools/obskit/obskit/configrender/render.py:621-651 | executing a plan gives every artifact and the manifest their planned bytes and leaves every other file alone |
| RenderLaws.NoNewManifest | tools/obskit/obskit/configrender/render.py:241-373 | a render adds no manifest: every written path that ends like one existed before |
| RenderLaws.SettledSteady | tools/obskit/obskit/configrender/render.py:241-373 | the bindings of a settled document, sync policies included, read nothing that the render writes |
| RenderLaws.TextNoReturn | tools/obskit/obskit/configrender/render.py:102-124 | no rendered text holds a carriage return, whatever the files held |
| RenderLaws.ReturnsLost | tools/obskit/obskit/configrender/render.py:102-111 | a rendered file that held a carriage return never keeps its bytes; one without is read byte for byte |
| RenderLaws.Settles | tools/obskit/obskit/configrender/render.py:494-544 | a rendered file's own patches change nothing when they run on what they left |
| RenderLaws.RenderFixpoint | tools/obskit/obskit/configrender/render.py:470-651 | after a render of a settled document, sync-policy bindings included, planning again gives the same plan, nothing is reported changed, and executing again changes no file |
| RenderHolds.RunHolds | tools/obskit/obskit/configrender/render.py:470-587 | whatever patches of one file precede and follow it, a patch whose place no other patch writes differently finds its place already written in the final text |
| RenderMeaning.PolicyWritten | tools/obskit/obskit/configrender/render.py:250-271 | after a render, a true sync-policy leaf leaves every manifest of the directory with exactly the three fixed lines under its automated key, and a false leaf leaves none of them an automated key |
| RenderMeaning.ScalarWritten | tools/obskit/obskit/configrender/render.py:286-298 | after a render, the scalar read at the binding's locator is the document's leaf, true and false for booleans and the same text for strings, in an adopted file |
| RenderMeaning.IsolationWritten | tools/obskit/obskit/configrender/render.py:272-285 | after a render, the top-level default_isolation_class of the target reads the document's leaf |
| RenderMeaning.JsonWritten | tools/obskit/obskit/configrender/render.py:218-238 | after a render, the target's JSON document holds at the locator's path the document's leaf, or its number of days followed by d |
| RenderMeaning.GateWritten | tools/obskit/obskit/configrender/render.py:376-398 | after a render, the target of a gate that is true starts with the marker |
| RenderRecords.PlannableIff | tools/obskit/obskit/configrender/render.py:218-398 | a binding plans exactly when it is cataloged, has a leaf, and its strategy's demands on the leaf's type, the target and the directory hold |
| RenderRecords.ArtifactIff | tools/obskit/obskit/configrender/render.py:545-570 | the plan lists a file under a key, system and strategy exactly when a binding with these reaches the file: every manifest of a sync-policy directory, the owned file, the target of a gate that is on, or else the target |
| RenderRecords.SkippedIff | tools/obskit/obskit/configrender/render.py:376-397 | the plan lists a target as skipped exactly for a presence gate whose leaf is false, which then reaches no file |
| RenderRecords.RecordedIff | tools/obskit/obskit/configrender/render.py:301-314 | the plan records a file, with the digest of what it holds, exactly when it lies beside an owned artifact |
| RenderRecords.PlanSorted | tools/obskit/obskit/configrender/render.py:524-556 | the plan's artifacts, skips and records stand in the order of path, key and system, of path and key, and of path |
| RenderDocuments.ManifestWritten | tools/obskit/obskit/configrender/render.py:408-446 | the manifest on disk parses to the document's digest and, entry by entry, the plan's artifacts with the digest of the file then on disk, the skips with their reason, and the records |
| RenderDocuments.DefaultsWritten | tools/obskit/obskit/configrender/render.py:361-373 | the owned isolation defaults parse to the document's class, the marker and the version |
| RenderDocuments.ProvisioningWritten | tools/obskit/obskit/configrender/render.py:344-360 | the owned provisioning state parses to the document's switch and one name and digest for every bundle of the directory, in path order |
| RenderDocuments.ChannelsWritten | tools/obskit/obskit/configrender/render.py:330-343 | the owned destinations parse to the kind and name of every channel of the document, ordered by name |
| RenderLaws.BindingOrderIrrelevant | tools/obskit/obskit/configrender/render.py:494-503 | the order of the bindings in the document does not affect the plan |
| RenderLaws.ResidualIff | tools/obskit/obskit/configrender/rollback.py:181-188 | after execution nothing differs from the plan, if and only if no artifact at the manifest's path has other content |
| RenderLaws.ManifestOnArtifactDiffers | tools/obskit/obskit/configrender/rollback.py:181-188 | a manifest written over an artifact with other content always leaves a difference |
| RenderRun.PlanState.Load | tools/obskit/obskit/configrender/render.py:102-111 | a file is read from the texts rendered so far, then from the tree with its line ends translated, and a missing one is an error |
| RenderRun.PlanState.Contribute | tools/obskit/obskit/configrender/render.py:113-124 | an in-scope file's text and contribution are recorded; otherwise the state is unchanged |
| RenderRun.PlanState.RenderJsonPathPatch | tools/obskit/obskit/configrender/render.py:218-238 | the JSON handler changes the state as its one patch does, or fails when that patch fails |
| RenderRun.PlanState.RenderScalar | tools/obskit/obskit/configrender/render.py:241-298 | the YAML scalar handler changes the state as its one patch does, or fails when that patch fails |
| RenderRun.PlanState.RenderTopLevel | tools/obskit/obskit/configrender/render.py:241-298 | the top-level handler changes the state as its one patch does, or fails when that patch fails |
| RenderRun.PlanState.RenderSyncPolicy | tools/obskit/obskit/configrender/render.py:241-298 | the sync-policy handler patches every manifest of the directory in order with the leaf's own value, or fails when one fails; what the files then hold is RenderMeaning.PolicyWritten |
| RenderRun.PlanState.RecordDirectory | tools/obskit/obskit/configrender/render.py:301-314 | the digests of the other files of an owned directory are recorded, earlier digests kept |
| RenderRun.PlanState.RenderOwnedArtifact | tools/obskit/obskit/configrender/render.py:317-373 | the owned-artifact handler writes the owned file and the directory's digests, or fails |
| RenderRun.PlanState.RenderPresenceGated | tools/obskit/obskit/configrender/render.py:376-405 | the presence gate adopts the target when the value is true and records a skip when it is false |
| RenderRun.PlanState.Handle | tools/obskit/obskit/configrender/render.py:503-523 | one turn of the binding loop changes the state as the binding's action does, and an uncataloged binding fails |
| RenderRun.HandledTexts | tools/obskit/obskit/configrender/render.py:503-523 | one turn of the loop is the next step of the texts and errors described binding by binding, a missing or unadoptable file before a bad value |
| RenderRun.Plan | tools/obskit/obskit/configrender/render.py:470-587 | the mutating loop over the bindings returns the described plan, or the error of the first binding in order that meets one |
| RenderRun.Disk.ExecutePlan | tools/obskit/obskit/configrender/render.py:621-651 | the writing loop leaves the tree the plan describes and reports each path once, the manifest last |
| RenderRun.Disk.Changed | tools/obskit/obskit/configrender/render.py:590-618 | the comparing loop reports exactly the planned paths whose bytes differ |
| Drift.DriftAgrees | tools/obskit/obskit/configrender/drift.py:188-247 | the drift report is clean exactly when nothing changed, has one entry per changed path, sorted and attributed to the first contributing binding |
| Drift.EntriesSay | tools/obskit/obskit/configrender/drift.py:137-175 | every entry names a planned file's binding or the manifest and carries the digests of planned and live content; it violates idempotency exactly when the live file is the manifest or holds the marker |
| Drift.CleanAfterRender | tools/obskit/obskit/configrender/drift.py:188-247 | after a render of a settled document the drift report is clean |
| Drift.Compute | tools/obskit/obskit/configrender/drift.py:188-247 | the loops over artifacts produce the described report without writing |
| Rollback.Restores | tools/obskit/obskit/configrender/rollback.py:143-196 | the earlier document's patches on a file the later document rendered give the earlier text |
| Rollback.RollbackExact | tools/obskit/obskit/configrender/rollback.py:143-196 | rendering A, then B, then A leaves every file byte-equal to rendering A alone, with the same plan and manifest and no residue |
| Rollback.ManifestDetermines | tools/obskit/obskit/configrender/rollback.py:118-140 | where the digest does not collide on the contents planned by the two, equal manifests mean equal source digest, artifacts, skips and recorded files: the determinism proof is conclusive |
| Rollback.RollbackRender | tools/obskit/obskit/configrender/rollback.py:143-196 | a rollback writes only when proven and executing, then leaves the planned tree, and succeeds exactly when proven and without residue |
| Rollback.RelativeFacts | tools/obskit/obskit/configrender/rollback.py:95-115 | the reported paths are the given ones, each once, ascending |
| UnifiedLeaves.ListedIff | tools/obskit/obskit/configrender/document.py:109-126 | the listed names are exactly those of the key paths that lead to a value |
| UnifiedLeaves.LeadsBackIff | tools/obskit/obskit/configrender/document.py:109-144 | a listed name splits back into its own key path exactly when no key of it holds a dot and its first key is not empty where the path goes on |
| UnifiedLeaves.OwnValue | tools/obskit/obskit/configrender/document.py:109-144 | the listed name of such a path resolves to the value at that path |
| UnifiedLeaves.LeafIff | tools/obskit/obskit/configrender/document.py:109-144 | where every leaf has such a path, a dotted key resolves to a value exactly when it is listed |
| UnifiedLeaves.PlainIsAddressable | tools/obskit/obskit/configrender/document.py:109-144 | names without dots, as the unified schema's are, give every leaf such a path |
| UnifiedLeaves.DottedKeyDoesNotResolve | tools/obskit/obskit/configrender/document.py:109-144 | an instance of the other side: the name of a key with a dot is listed and leads nowhere |
| UnifiedLeaves.RulesAcceptIff | tools/obskit/obskit/configrender/document.py:147-246 | the cross-file rules report nothing exactly when the bound keys are the leaves, every system is registered, and both paths of every binding have no parent segment, are outside the read-only tree and lie in a surface of the system |
| UnifiedLeaves.ReportedIff | tools/obskit/obskit/configrender/document.py:165-246 | each violation is reported exactly under its own condition: an unregistered system, a key that is no leaf, the first fault of either path, a leaf no binding names |
| UnifiedLeaves.AcceptedResolves | tools/obskit/obskit/configrender/document.py:195-246 | once the rules accept, the keys that resolve are exactly the bound ones |
| UnifiedLeaves.AcceptedPlans | tools/obskit/obskit/configrender/render.py:503-523 | no accepted document fails to plan for want of a value |
| UnifiedLeaves.WalkLeaves | tools/obskit/obskit/configrender/document.py:109-126 | the recursive walk appends exactly the leaves below a mapping, in document order |
| PathRules.DotSegmentsIff | tools/obskit/obskit/configrender/document.py:153-162 | the dot-segment check finds exactly the paths with a parent segment |
| PathRules.RefusesDotsIff | tools/obskit/obskit/configrender/document.py:153-162 | a path with a '.' or '..' segment is refused as promised exactly when a '..' segment is there, or neither is |
| PathRules.SingleDotPasses | tools/obskit/obskit/configrender/document.py:165-192 | a path through a single-dot segment meets no fault |
| PathRules.AcceptedIsInside | tools/obskit/obskit/configrender/document.py:147-192 | an accepted path runs through the parts of a surface of its system and never up |
| PathRules.StaysOutsideIff | tools/obskit/obskit/configrender/document.py:147-192 | every accepted path stays outside the read-only tree exactly when no surface of the system is a directory above the tree or reaches into it under another spelling |
| UnifiedLeaves.EnforceRules | tools/obskit/obskit/configrender/document.py:147-246 | the loops collect every violation, in order, each path with the fault found first |
| SchemaLaws.CycleIffEndless | tools/obskit/obskit/install/contract.py:224-246 | validation always ends, and raises the cycle error exactly when expanding references without the active set would never end |
| SchemaMeaning.SoundAndComplete | tools/obskit/obskit/install/contract.py:202-410 | when validation does not raise, it reports no violation exactly when the instance satisfies the schema, each keyword read on its own terms: a type name by the kinds of value it stands for, bounds by amount, nested allOf, if and then included |
| SchemaMeaning.TypeIs | tools/obskit/obskit/install/contract.py:73-80 | the type check passes exactly for the kinds of value the name stands for: object for mappings, array for lists, string, boolean, integer for integers, number for integers and floats, and never a boolean for a number |
| SchemaValues.StrictEqualIff | tools/obskit/obskit/install/contract.py:190-199 | two values are equal for enum and const exactly when both or neither are booleans and they mean the same: numbers by amount, objects whatever the order of their keys |
| SchemaValues.PointerResolves | tools/obskit/obskit/install/contract.py:163-187 | the pointer of a path of keys, slashes and tildes escaped, resolves to the object at that path, and to nothing when there is no object |
| SchemaReports.ReportsExactly | tools/obskit/obskit/install/contract.py:214-401 | a node's report holds exactly the keywords the instance breaks there, and what the parts report, each at its own place: list index, property name, allOf branch or then |
| SchemaFaults.RaisesIff | tools/obskit/obskit/install/contract.py:122-401 | validation raises exactly for an unknown keyword, a keyword value it cannot use on this instance, a reference that is open, foreign or leads nowhere, or a part it raises on |
| SchemaRun.Resolve | tools/obskit/obskit/install/contract.py:163-187 | the walk over pointer tokens resolves a reference, unescaping each token, or finds nothing |
| SchemaRun.ValidateNode | tools/obskit/obskit/install/contract.py:214-401 | the recursive checks only ever extend the shared error list, by exactly the described violations, and stop with the described exception |
| SchemaRun.Answers | tools/obskit/obskit/install/contract.py:404-410 | the validator returns every violation in order, or the exception |
| InstallFlow.Flow.RecordStep | tools/obskit/obskit/install/flow.py:539-555 | recording a step leaves exactly that entry changed |
| InstallFlow.Flow.RunStep | tools/obskit/obskit/install/flow.py:576-604 | one step skips, executes or fails as described, with the journal and the files that result |
| InstallFlow.Flow.Run | tools/obskit/obskit/install/flow.py:558-605 | the loop over the ordered steps gives the described install and the index of the failing step |
| InstallLaws.SkipIsRerun | tools/obskit/obskit/install/flow.py:531-605 | where a step is skipped, executing it instead would succeed, write the journaled outputs and leave the disk as it is |
| InstallLaws.TurnSound | tools/obskit/obskit/install/flow.py:539-605 | each step keeps the journal sound and readies the next |
| InstallLaws.JournalSound | tools/obskit/obskit/install/flow.py:219-239 | over any sequence of installs and of files lost between them, a step recorded completed whose files are all there has on disk exactly what executing it on its digest's inputs would write |
| InstallLaws.SuccessLeaves | tools/obskit/obskit/install/flow.py:558-605 | an install that succeeds, whatever it skipped, leaves a passed preflight, an evaluation without blockers, the valid contract, both renders and a passed readiness summary, each as the snapshot and the answers give them |
| InstallLaws.RerunDoesNothing | tools/obskit/obskit/install/flow.py:570-605 | in snapshot mode an install after a successful one executes nothing and changes nothing |
| InstallLaws.ResumesAtFailure | tools/obskit/obskit/install/flow.py:570-605 | in snapshot mode an install after a failure at step k skips the steps before k and continues at k, which is not skipped |
| Trigger.EventProcessor.Prune | services/ai/airuntime/khook.py:166-172 | the pruned window is the stamps of the last 60 seconds, in order |
| Trigger.EventProcessor.Process | services/ai/airuntime/khook.py:143-165 | processing an event updates the uid set, the maps and the counters and emits as described; which events share a key is TriggerKeys.KeyIff |
| Trigger.EventProcessor.Dispatch | services/ai/airuntime/khook.py:166-204 | a matched event is dispatched, deduplicated, summarised or suppressed as described |
| TriggerLaws.RunTells | services/ai/airuntime/khook.py:143-204 | after any run the uid set, the last times, the pruned windows and every counter are functions of the history, and the counters add up |
| TriggerLaws.DecidedByHistory | services/ai/airuntime/khook.py:166-204 | each event is decided as the unpruned history of its key would decide it |
| TriggerLaws.Coverage | services/ai/airuntime/khook.py:166-204 | once a matched well-formed event is processed, its key has an emission less than 300 seconds old |
| TriggerLaws.RunSpaced | services/ai/airuntime/khook.py:166-204 | an individual dispatch comes at least 300 seconds after any emission of its key, and summaries at least 60 seconds apart |
| TriggerLaws.Rate | services/ai/airuntime/khook.py:166-204 | over any span of L seconds a key emits at most L/300 + L/60 + 2 envelopes |
| TriggerLaws.UidOnce | services/ai/airuntime/khook.py:143-158 | an event whose uid was processed before is a duplicate, so a uid emits at most once a run |
| TriggerLaws.SummaryCountIff | services/ai/airuntime/khook.py:183-196 | a summary's suppressed count is the number of events it stands for exactly when one event of the window was dispatched on its own, else one less |
| TriggerLaws.SummaryMiscounts | services/ai/airuntime/khook.py:183-196 | one dispatch and, 100 seconds later, eleven events within a minute: the summary stands for eleven and reports ten |
| TriggerKeys.KeyIff | services/ai/airuntime/khook.py:81-90 | with an injective digest and no separator inside a field, two events share the dedupe key exactly when cluster, namespace, kind, name and reason agree |
| TriggerKeys.CorrelationIff | services/ai/airuntime/khook.py:81-86 | under the same conditions the correlation ids of two envelopes are equal exactly for the same five fields |
| TriggerKeys.BarsConfuse | services/ai/airuntime/khook.py:81-90 | two incidents of different clusters and namespaces whose fields hold the separator share both keys |
| TriggerKeys.FirstDispatched | services/ai/airuntime/khook.py:143-204 | in any run, the first matched event of such a five-tuple is dispatched on its own, whatever came before |
| TriggerKeys.HookIff | services/ai/airuntime/khook.py:39-47 | an event gets a hook and a severity exactly when its kind and reason are those of the catalog's row |
| TriggerKeys.NormalizedRepeats | services/ai/airuntime/khook.py:50-78 | a normalized event repeats the raw members, with the first non-empty timestamp and namespace in the order of preference |
| TriggerKeys.SummarySpans | services/ai/airuntime/khook.py:163-194 | a summary stands for the more than ten latest sightings that are under 60 seconds old, and names the timestamps of the oldest and the newest of them |
| TriggerKeys.EnvelopeRepeats | services/ai/airuntime/khook.py:93-113 | an envelope carries the polled event, the incident's correlation id and the catalog's hook and severity |
| TriggerKeys.LostIsNotRetried | services/ai/airuntime/khook.py:268-281 | once an envelope was made, neither a later poll of its event nor, within 300 seconds and short of a burst, another event of the incident makes one again, delivered or not |
| ApprovalRun.Store.ListCasefiles | services/ai/airuntime/store.py:167-172 | listing returns exactly the stored casefiles |
| ApprovalRun.EscalationChain | services/ai/airuntime/policy.py:101-155 | the loop accumulates each role's offset from the deadline |
| ApprovalRun.BuildApproval | services/ai/airuntime/policy.py:101-155 | a proposed write gets a pending approval with its deadline and escalation chain, and any other class none |
| ApprovalRun.Kagent.Trigger | services/ai/airuntime/kagent.py:114-185 | a trigger opens a casefile, is absorbed by an open one, or is refused, as described |
| ApprovalRun.Kagent.Decide | services/ai/airuntime/kagent.py:203-261 | a decision moves store and gateway as the step function says; what each word does is ApprovalMeaning.RejectionEffects and ApprovalMeaning.ApprovalEffects |
| ApprovalRun.Kagent.Execute | services/ai/airuntime/kagent.py:263-354 | the casefile is saved as executing, the gateway is called once, and its outcome is stored and audited as described |
| ApprovalRun.Kagent.EvaluateTimeout | services/ai/airuntime/kagent.py:356-415 | the paged roles are audited one by one and the final denial is stored as described |
| ApprovalRun.Kagent.RunInvestigation | services/ai/airuntime/kagent.py:457-633 | the investigation advances through its parts and stops at the first specialist that does not answer |
| ApprovalLaws.StepKeeps | services/ai/airuntime/kagent.py:114-633 | every handler keeps the protocol's invariant and changes no decided approval, terminal casefile, journal or audit record |
| ApprovalLaws.RunKeeps | services/ai/airuntime/kagent.py:114-633 | the invariant holds and settled things stay settled over any run |
| ApprovalLaws.ProtocolSafety | services/ai/airuntime/kagent.py:203-415 | in every reachable state the write path was called at most once per approval, only for one stored approved in time by someone other than the requester; resolved casefiles had an executed outcome; a correlation id has one open casefile |
| ApprovalLaws.DecidedForever | services/ai/airuntime/policy.py:158-213 | a decided approval and a terminal casefile never change |
| ApprovalLaws.MadeMeans | services/ai/airuntime/policy.py:101-155 | approvals exist for the two highest write classes only, with deadlines of 60 and 120 minutes, warnings halfway and the three-role chain |
| ApprovalLaws.DecisionIff | services/ai/airuntime/policy.py:158-213 | a decision on any approval is accepted exactly when it is pending, the approver is named and is not the requester, the decision is one of two, the deadline has not passed, and an approved critical write names its change ticket |
| ApprovalMeaning.DecisionRecords | services/ai/airuntime/policy.py:190-201 | an accepted decision stores approved exactly for the word approved and rejected exactly for rejected, with the approver, the time and the ticket, the request otherwise unchanged |
| ApprovalMeaning.RejectionEffects | services/ai/airuntime/kagent.py:222-261 | a rejection calls nothing: it is audited and journaled as blocked, denies the gate and refuses the casefile, and touches nothing else |
| ApprovalMeaning.ApprovalEffects | services/ai/airuntime/kagent.py:263-354 | an approval makes one call with the stored record; the reported outcome is journaled and audited, the reply's evidence joins, and the casefile is resolved exactly for an execution and refused otherwise |
| ApprovalMeaning.ExpiryEffects | services/ai/airuntime/kagent.py:356-415 | an expiry calls nothing, audits one page per role whose turn has come and then the denial, and refuses the casefile with its gate timed out |
| ApprovalMeaning.EveryCallConsented | services/ai/airuntime/kagent.py:243-281 | in every run from the empty store, each call rests on a decision event of the run for its approval with the word approved, by the approver and at the time its record names |
| ApprovalMeaning.RejectedNeverCalled | services/ai/airuntime/kagent.py:243-261 | after a rejection no continuation of the run ever calls with that approval |
| ApprovalMeaning.StoreTells | services/ai/airuntime/kagent.py:457-633 | after any run every casefile's gate and status say what became of its approval, and the seven roles have worked on it in order before approval was asked |
| ApprovalMeaning.OpensIff | services/ai/airuntime/kagent.py:114-186 | a trigger opens one empty casefile exactly when it is complete, its id has eight characters, and every casefile of that id is closed |
| ApprovalLaws.TimeoutIff | services/ai/airuntime/policy.py:216-266 | any pending approval warns and times out exactly from its class's minutes on, pages one, two or three roles by the time passed, and is finally denied 90 minutes after the deadline |
| ApprovalLaws.ChainIs | services/ai/airuntime/policy.py:101-155 | the three roles are paged at the deadline, 30 and 90 minutes after it |
| ApprovalLaws.StuckIff | services/ai/airuntime/kagent.py:263-354 | an approved action is left executing, without an outcome record, exactly when the reply is lost or its outcome unknown |
| ApprovalLaws.LostReplySticks | services/ai/airuntime/kagent.py:263-354 | a reachable run in which an approval comes in time, the call is made, its reply is lost and the casefile stays executing |
| ApprovalLaws.StuckForever | services/ai/airuntime/kagent.py:263-354 | over any run, such a casefile is executing in every continuation, and every later trigger of its correlation id is absorbed |
| ApprovalLaws.TriggerAbsorbed | services/ai/airuntime/kagent.py:114-185 | while a casefile is open, further triggers of its correlation id change nothing |
| Redaction.RedactedIsClean | services/ai/airuntime/policy.py:306-351 | a redacted tree holds no unmasked mask field and no restricted object at any depth |
| Redaction.CleanStays | services/ai/airuntime/policy.py:306-351 | a clean tree redacts to itself and denies nothing |
| Redaction.MaskedAreMaskKeys | services/ai/airuntime/policy.py:306-351 | the masked fields listed are exactly the mask fields of the redacted tree |
| Redaction.DropsAreOutermost | services/ai/airuntime/policy.py:306-351 | the dropped objects are exactly the outermost restricted ones, each once |
| Redaction.DeniedAreDrops | services/ai/airuntime/policy.py:306-351 | the denied domains listed are those of the dropped objects, in order |
| Redaction.TruncatedIsBounded | services/ai/airuntime/gateway.py:39-63 | no list of a truncated tree is longer than 500 |
| RedactionMeaning.RedactedShows | services/ai/airuntime/policy.py:306-351 | a redacted tree lists, in document order, every entry of the original outside the objects of the three restricted domains, with the four secret fields masked, and nothing else |
| RedactionMeaning.TruncatedAt | services/ai/airuntime/gateway.py:39-63 | a value is in the bounded tree exactly when its path stays within the first 500 items of every list, and is the bounded value at the same path |
| RedactionMeaning.CutsCounted | services/ai/airuntime/gateway.py:39-63 | the reported number is that of the visible lists with more than 500 items |
| Redaction.TruncationIff | services/ai/airuntime/gateway.py:39-63 | truncation is the identity, and counts nothing, exactly on trees whose lists are short enough |
| Redaction.TruncatedStaysClean | services/ai/airuntime/gateway.py:380-392 | truncation brings back nothing redacted |
| Redaction.ResponseLaws | services/ai/airuntime/gateway.py:380-392 | a redacted and truncated response is clean and bounded, and the whole path is idempotent |
| Redaction.Walker.Walk | services/ai/airuntime/policy.py:306-351 | the recursive walk that appends to two shared lists returns the redacted tree and appends exactly its masked fields and denied domains |
| Redaction.TruncateLists | services/ai/airuntime/gateway.py:39-63 | the recursive copy returns the bounded tree and the number of lists cut |
| Heartbeats.HealthIsRecent | services/ai/airuntime/gateway.py:418-442 | after any probes a service is registered exactly while healthy, and healthy exactly while fewer than three probes in a row went unanswered |
| Heartbeats.EventsAlternate | services/ai/airuntime/gateway.py:418-460 | the audit trail of a service alternates between outage and recovery and ends in an outage exactly when it is unhealthy |
| Heartbeats.OneMarkPerOutage | services/ai/airuntime/gateway.py:418-460 | there is one outage record per run of at least three misses, however long it lasts |
| Heartbeats.Gateway.HeartbeatOnce | services/ai/airuntime/gateway.py:418-442 | one round moves every service by its own answer and appends the described events in registry order |
| Audits.EmittedIff | services/tenancy/tenantctl/audit.py:59-149 | an audit record is written exactly when it names tenant, transition and actor, a denial carries its reason, and every required field is a base field or one of the extras |
| TenantLaws.InnerFacts | services/tenancy/tenantctl/service.py:282-540 | a denial changes nothing, a replay adds only its audit record, an application audits once with every field its contract requires, and no call touches another tenant |
| TenantLaws.OneAuditPerCall | services/tenancy/tenantctl/service.py:236-280 | every transition call on a well-formed id that returns or is denied adds exactly one audit record, freshly numbered, that states who, what, when and how it ended, with the reason of a denial and every field the contract requires otherwise |
| TenantLaws.NeverUnaudited | services/tenancy/tenantctl/audit.py:59-149 | when the contract asks only for fields the service sets and gates the two destructive transitions at their risk classes, no call escapes the audit trail |
| TenantLaws.UnauditedIff | services/tenancy/tenantctl/service.py:236-540 | a transition call ends without its record exactly when the transition has no name, or the call is admitted to a transition whose record cannot be written: a missing gate, a required field it does not add, a replayed record without its end; an applied one has moved the tenant by then |
| TenantLaws.UnrecordedProvision | services/tenancy/tenantctl/service.py:721-760 | a contract that requires the reason of a provisioning: the tenant is provisioned and nothing is recorded |
| TenantRuns.PurgeSafety | services/tenancy/tenantctl/service.py:670-719 | every applied purge finds no legal hold and follows an applied offboarding of the same incarnation whose recorded retention end has passed |
| TenantGates.RequestIff | services/tenancy/tenantctl/models.py:504-600 | a request parses exactly for the fields its transition takes, texts non-empty and the suspension trigger one of two, and repeats their texts |
| TenantGates.ApprovalIff | services/tenancy/tenantctl/approval.py:204-270 | the approval gate opens exactly for a block of the four fields of its risk class, five with the change ticket for a critical one, none empty, decided as approved at most 60 minutes ago, or 120, and not in the future |
| TenantGates.DestructionApproved | services/tenancy/tenantctl/service.py:310-313 | in any run, every applied transition of a risk class carried such an approval in its body |
| TenantGates.NeverUnapproved | services/tenancy/tenantctl/service.py:310-313 | under a machine that gates both, every offboarding was approved within the hour before it and every purge within two hours with a change ticket |
| TenantGates.AuditRepeats | services/tenancy/tenantctl/service.py:721-777 | the record of an applied or replayed transition repeats the request's reason and trigger, the approval's id and ticket, and the completed transition's times |
| TenantGates.AppliedSaves | services/tenancy/tenantctl/service.py:452-540 | an applied transition saves the caller, the instant, the approval's id and ticket, and the trigger, window end or purge time of its kind |
| TenantGates.DenialSays | services/tenancy/tenantctl/service.py:236-281 | a denied call changes no tenant and leaves one record of the caller, the attempt, the time and the error |
| TenantGates.CreatedIff | services/tenancy/tenantctl/service.py:114-147 | a tenant is created exactly from a valid document in the initial state, in scope, under an id that is free or gone, with nothing of an earlier tenant left |
| TenantGates.UpdateKeeps | services/tenancy/tenantctl/service.py:191-220 | an update changes only its own tenant's document and keeps identity, state, creation time and hold |
| TenantGates.HoldSets | services/tenancy/tenantctl/service.py:222-234 | a legal hold is set or lifted as asked on a known tenant, and nothing else changes |
| TenantGates.ProvisionedInRegion | services/tenancy/tenantctl/service.py:670-690 | every applied provisioning found its region among the allowed ones, if any are named |
| TenantRuns.OffboardBefore | services/tenancy/tenantctl/service.py:492-516 | a recorded retention end is that of an applied offboarding since the tenant was last created |
| TenantRuns.RetentionEndMeans | services/tenancy/tenantctl/service.py:658-668 | the retention end is the largest of the three retentions after the offboarding, cut to whole seconds, and exact only for an offboarding at a whole second |
| TenantRuns.RetentionEndCut | services/tenancy/tenantctl/service.py:658-668 | an offboarding half a second past the whole second ends half a second early |
| TenantRuns.StateChanges | services/tenancy/tenantctl/service.py:114-146 | a tenant's state changes only through an applied transition from a state its spec allows, or a fresh creation over a terminal record |
| TenantRuns.AuditComplete | services/tenancy/tenantctl/store.py:149-157 | over any run the audit trail is numbered without gaps and holds one record per attempt |
| TenantRuns.AppliedThenReplayed | services/tenancy/tenantctl/service.py:347-448 | an applied transition requested again and admitted is a replay that changes no tenant and no transition record |
| TenantService.ControlPlaneStore.ClearTransitions | services/tenancy/tenantctl/store.py:133-147 | the loop drops exactly one tenant's transition records |
| TenantService.ControlPlaneStore.AppendAudit | services/tenancy/tenantctl/store.py:149-157 | a record gets the next number |
| TenantService.TenantControlPlaneService.CreateTenant | services/tenancy/tenantctl/service.py:114-147 | creation over nothing or a terminal record replaces it and forgets its transitions; otherwise nothing changes |
| TenantService.TenantControlPlaneService.UpdateTenant | services/tenancy/tenantctl/service.py:191-220 | an update that would change the id, the state or the creation time is refused without effect; any other valid one replaces the document and keeps the hold |
| TenantService.TenantControlPlaneService.SetLegalHold | services/tenancy/tenantctl/service.py:222-234 | a hold is set on a known tenant and nothing else changes |
| TenantService.TenantControlPlaneService.Transition | services/tenancy/tenantctl/service.py:236-280 | a denial is caught, audited and reported; other outcomes pass through |
| TenantService.TenantControlPlaneService.TransitionInner | services/tenancy/tenantctl/service.py:282-345 | the checks in order, then replay or application, as the step function says; what the gates admit is TenantGates.RequestIff and TenantGates.ApprovalIff |
| TenantService.TenantControlPlaneService.EmitAudit | services/tenancy/tenantctl/audit.py:100-149 | the checks, then the write: a record that fails one leaves the store as it is |
| TenantService.TenantControlPlaneService.Attest | services/tenancy/tenantctl/service.py:721-777 | the record is assembled from request, approval and completed transition, and written if it passes |
| TenantService.TenantControlPlaneService.Replay | services/tenancy/tenantctl/service.py:347-450 | a replay appends its audit record and nothing else |
| TenantService.TenantControlPlaneService.Apply | services/tenancy/tenantctl/service.py:452-540 | the tenant is saved in its new state, then the transition record, then the audit record |
| MachineFile.LoadStateMachine | services/tenancy/tenantctl/state_machine.py:67-230 | from the text of a file, the line loop and the checking loop load the described machine, or report the same first error |
| MachineFile.Check | services/tenancy/tenantctl/state_machine.py:184-217 | the checking loop finds the first transition that misses a fact or names an unknown state |
| Indented.SplitFile | services/tenancy/tenantctl/state_machine.py:90-90 | writing lines and splitting the file gives the lines back, if none holds a line break |
| MachineLaws.LoadedIsPrintable | services/tenancy/tenantctl/state_machine.py:67-230 | whatever a file says, a loaded machine has every fact, only known states, the five transitions, and stripped texts of one line each |
| MachineLaws.RoundTrip | services/tenancy/tenantctl/state_machine.py:67-230 | writing such a machine to a file in the contract's shape, its transitions in any order, and loading the file gives the machine back |
| MachineLaws.LoadableIff | services/tenancy/tenantctl/state_machine.py:67-230 | a machine is what some file's text loads as exactly when it is printable, line breaks in its texts excluded |
| MachineProse.CommentsDoNothing | services/tenancy/tenantctl/state_machine.py:90-93 | blank lines and comments anywhere do not change what is loaded, errors included |
| MachineProse.ProseDoesNothing | services/tenancy/tenantctl/state_machine.py:94-176 | an unknown field with prose of any wording below it changes nothing, wherever in the two sections it stands |
| MachineProse.AuditBlockIgnoredIff | services/tenancy/tenantctl/state_machine.py:155-176 | after the audit fields have begun, further lines of that block are ignored exactly when none is an item at the fields' indentation; each such item becomes a required field |
| MachineProse.LateListJoins | services/tenancy/tenantctl/state_machine.py:155-176 | every loadable machine has a file in which a list under another key of an audit block becomes required audit fields |
| MachineProse.LoadedServes | services/tenancy/tenantctl/state_machine.py:178-230 | every loaded machine is one the tenant service's theorems apply to, with all five transitions |
| CatalogRun.EntryBuilder.Finish | services/portal/portalsvc/catalog.py:60-98 | an entry is complete, or reports its missing fields in order, or its first unmapped group |
| CatalogRun.Loader.FinishMapping | services/portal/portalsvc/catalog.py:121-129 | a pending mapping joins the entry with its role lines joined by spaces |
| CatalogRun.Loader.FinishEntry | services/portal/portalsvc/catalog.py:131-136 | the entry being built is finished and appended, or its error is reported |
| CatalogRun.Loader.ReadLine | services/portal/portalsvc/catalog.py:138-231 | one line changes the loader's state, and the builder it points to, as described |
| CatalogRun.LoadUiCatalog | services/portal/portalsvc/catalog.py:101-239 | from the text of a file, the loop over its lines returns the described entries, or the same first error |
| CatalogLaws.LoadedIsPrintable | services/portal/portalsvc/catalog.py:60-239 | every loaded entry maps both required groups, has stripped roles, no null-like profile key, and texts of one line each |
| CatalogLaws.RoundTrip | services/portal/portalsvc/catalog.py:101-239 | writing such a catalog to a file, each role inline or folded over any lines that join to it, and loading the file gives the entries back |
| CatalogLaws.LoadableIff | services/portal/portalsvc/catalog.py:101-239 | a catalog is what some file's text loads as exactly when it is printable, line breaks in its texts excluded |
| CatalogLaws.JoinTrims | services/portal/portalsvc/catalog.py:121-129 | folded role lines joined by spaces have nothing left to strip |
| CatalogProse.CommentsDoNothing | services/portal/portalsvc/catalog.py:138-141 | blank lines and comments change nothing, even between the lines of a folded role |
| CatalogProse.ProseDoesNothing | services/portal/portalsvc/catalog.py:168-231 | an unknown field of an entry, with prose of any wording below it, changes nothing, errors included |
| UsageValidation.CheckRecord | services/commercial/commercialsvc/validation.py:144-291 | the checks append to the shared list exactly the described errors, in order |
| UsageValidation.CheckReference | services/commercial/commercialsvc/validation.py:45-134 | the source reference's checks append exactly the described errors |
| UsageValidation.ValidIff | services/commercial/commercialsvc/validation.py:144-291 | no error is reported exactly for the documents with the required fields, the id and binding the dimension fixes, an ordered window and a reference of one of two shapes |
| UsageValidation.ReferenceValidIff | services/commercial/commercialsvc/validation.py:45-134 | the reference's checks only extend the list, and add nothing exactly for the two legal shapes |
| UsageErrors.ReportedIff | services/commercial/commercialsvc/validation.py:45-291 | each error is reported exactly when its own condition on the document holds, patterns read as templates and alphabets |
| UsageRecords.BuildIngestRecords | services/commercial/commercialsvc/builder.py:66-102 | the loop builds one record per statistic in tenant and signal order |
| UsageRecords.BuildRetentionRecords | services/commercial/commercialsvc/builder.py:105-139 | the nested loops build three records per descriptor in tenant order |
| UsageRecords.GroupByTenant | services/commercial/commercialsvc/builder.py:164-166 | grouping collects each tenant's statistics in input order |
| UsageRecords.Tally | services/commercial/commercialsvc/builder.py:172-186 | a tenant's documents and queries are summed and its indices united |
| UsageRecords.BuildActivityRecords | services/commercial/commercialsvc/builder.py:142-208 | one activity marker per known tenant, in order |
| UsageRecords.BuildQueryVolumeRecords | services/commercial/commercialsvc/builder.py:211-255 | one query record per tenant from the last statistic of that tenant |
| UsageRecords.BuildUsageRecords | services/commercial/commercialsvc/builder.py:258-307 | the four lists are joined and sorted by tenant, dimension and signal |
| UsageLaws.EveryRecordValid | services/commercial/commercialsvc/builder.py:258-307 | for slug tenants and non-negative, properly cited statistics every built record passes the validator |
| UsageLaws.IdsDistinctIff | services/commercial/commercialsvc/builder.py:32-36 | record ids are distinct exactly when no two ingest statistics share tenant and signal and no two descriptors share a tenant |
| UsageLaws.OrderForgotten | services/commercial/commercialsvc/builder.py:258-307 | when no source repeats itself the records do not depend on the order of the inputs |
| UsageLaws.OneEach | services/commercial/commercialsvc/builder.py:142-255 | every known tenant has exactly its one activity record and one query record, and no other tenant has any |
| UsageLaws.ActiveIff | services/commercial/commercialsvc/builder.py:171-207 | the activity marker is one exactly for a tenant that retained documents or ran queries |
| UsageMeaning.EveryRecordSays | services/commercial/commercialsvc/builder.py:39-255 | every built record carries its source's figure in its source's unit: bytes as gigabytes to the nearest millionth, the retention days of its own signal, the activity marker, the query count, with the indices and counts it cites |
| UsageMeaning.EverySourceReported | services/commercial/commercialsvc/builder.py:66-139 | every ingest statistic and each of the three signals of every descriptor has its record |
| UsageLaws.QueriesConserved | services/commercial/commercialsvc/builder.py:211-255 | the queries all records report are the queries the sources counted |
| Invoicing.Group | services/commercial/commercialsvc/invoicing.py:278-281 | grouping keeps each key's values in record order and the keys in order of appearance |
| Invoicing.CheckAll | services/commercial/commercialsvc/invoicing.py:258-276 | the loop reports the first refused record's error |
| Invoicing.BuildLines | services/commercial/commercialsvc/invoicing.py:283-300 | one line per key, in sorted order |
| Invoicing.BuildInvoice | services/commercial/commercialsvc/invoicing.py:235-324 | the loops build the described invoice or report its error |
| InvoiceLaws.RoundingFacts | services/commercial/commercialsvc/invoicing.py:193-196 | rounding moves a value by at most half a millionth onto the grid and keeps grid values |
| InvoiceLaws.BlocksAreLeast | services/commercial/commercialsvc/invoicing.py:199-223 | the billed query blocks are the least number of thousands that reaches the total |
| InvoiceLaws.OrderIrrelevant | services/commercial/commercialsvc/invoicing.py:235-324 | the invoice does not depend on the order of the records |
| InvoiceLaws.CountsConserved | services/commercial/commercialsvc/invoicing.py:278-300 | the lines' source record counts sum to the number of records |
| InvoiceLaws.TotalNear | services/commercial/commercialsvc/invoicing.py:283-317 | the total differs from the exact total by at most half a millionth per line and one more |
| InvoiceCharges.LinesCharge | services/commercial/commercialsvc/invoicing.py:199-223 | each line charges its records by the plan: ingest and retention by what every record has above the bound, active tenants by amount, queries by the least number of thousands, times the rate; one line for each dimension and signal, in order |
| InvoiceCharges.BuiltIff | services/commercial/commercialsvc/invoicing.py:235-299 | an invoice is built exactly for a period of positive length and at least one record, all of the tenant, inside the period, and priced by the plan |
| InvoiceCharges.InvoiceSays | services/commercial/commercialsvc/invoicing.py:283-325 | an invoice names its tenant, plan and period, its overage is the sum of its lines' to the millionth, and its total that sum and the base |
| InvoiceCharges.HalvesToEven | services/commercial/commercialsvc/invoicing.py:193-196 | a half is rounded to the even neighbour |
| InvoiceCharges.TamperingShows | services/commercial/commercialsvc/invoicing.py:327-368 | a consistent invoice whose total, overage or base is changed to another millionth is refused |
| InvoiceLaws.BuiltConsistentIff | services/commercial/commercialsvc/invoicing.py:327-368 | a built invoice passes the consistency check exactly when its tenant id is not empty |
| InvoiceLaws.NamelessInvoiceFails | services/commercial/commercialsvc/invoicing.py:327-368 | under any clock that reads its four timestamps in order, an invoice for the empty tenant id is built and fails the check |

## Left out

Renderer
- Parameters instead of code: sha256, the JSON codec and the texts of floats as their laws say, the texts of numbers in YAML, the write-scope and containment checks, and the strategy catalog.
- JsonText: NaN, infinities, lone surrogates, and the limits on integer length and nesting depth are not modelled.
- JsonPatch: the path setter is modelled on values; the program updates nested dicts and lists in place, so aliasing between parts of one document is not captured.
- RenderLaws.RenderFixpoint: assumes what the failures above call for, as conditions on the tree before the render (the configuration is a document the codec reads, files with the isolation key and scalars keep both, manifests settle under their policy, no value ends with a newline, no manifest path is also an artifact), that owned directories and patched manifest directories are not written to by other bindings or the render manifest, and that one file gets patches of one kind: JSON settings at equal or diverging paths, line edits that do not write the isolation key in two ways, one sync policy, or whole files.
- RenderMeaning.ScalarWritten: under the same conditions, for a binding whose place no other binding of the document writes with another leaf or transform; RenderMeaning.IsolationWritten, RenderMeaning.JsonWritten and the owned documents likewise.
- Rollback.RollbackExact: the same conditions, and both documents must have the same bindings, presence gates and sync policies.
- RenderPlan: the commit message, and the schema validation and contract loading that precede planning; a malformed notification channel is a bad value whichever field is wrong.
- PathRules: paths are not resolved on the file system, so symbolic links are not modelled.
- Decoding of files is not modelled.

Validator
- SchemaRun.Answers: which exception a schema that is no object raises is one kind of fault; NaN and infinities are not modelled, and regular-expression search is a parameter.

Install flow
- InstallLaws.JournalSound: files are lost whole, between installs, and not changed by others; snapshot inputs and flags are fixed along the runs; live cluster readings are constant within a run, and only operator errors are modelled. The snapshot's path flows into outputs but not into a step's digest, so a run with another path and the same bytes is outside the theorem. The readiness digest concatenates snapshot and answers; that the pair can be told apart is assumed of the engine.
- The bodies of the steps (preflight, grading, wizard, rendering) are parameters.

Trigger, approvals, gateway
- Polling, HTTP, the dispatch-failure counter, SQL stores and response bodies; timestamps are numbers and one handler is one atomic step with the clock as input.
- TriggerKeys.KeyIff: the digest is assumed injective.
- Approvals: interleavings inside a handler and of the investigation thread with handlers between its parts' store accesses; the closed casefile status, which nothing sets; model completions, token budgets and evidence contents.
- Redaction: audit events and the routing, binding and precondition checks of a tool call.
- Heartbeats: the loop's timing and what the catalog answers meanwhile.

Tenants
- Rendered overlays, evidence files and prepared commits (evidence references and denial messages are one opaque value in audit records); one clock reading serves a whole call; the document schema, the id pattern and the timestamp parser are parameters; listing and reading endpoints.
- Crashes between two store writes.

Contract loaders
- MachineFile.LoadStateMachine: given the decoded text; reading the file, its encoding and a missing file are not modelled.
- CatalogRun.LoadUiCatalog: the same; resolving an endpoint for a request is a single lookup.

Metering and invoicing
- Floats are exact rationals, rounded half to even at six places; sums are exact.
- UsageValidation: `\d` is an ASCII digit, and error texts are kinds of error.
- UsageLaws.EveryRecordValid: one direction; statistics with slightly negative sizes that round to zero also pass.
- Exporters, sources, plan catalogs and the timestamps of generation.

Not modelled at all: HTTP servers and clients, Kubernetes and search access, command lines, the HTML frontend, health rollups, fixed text templates, preflight and discovery predicates, grading and mode lookup, risk, vector and root-cause stubs.
