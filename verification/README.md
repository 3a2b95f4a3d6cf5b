# Transcript projectors and gate observation kernels, modelled and proved

Two families of small state machines carry the trust of this repository.

The **transcript projectors** (`v2/adapters/src`) fold the lines that a coding
harness prints into events. They join chunks, suppress the echo of a prompt,
remember a bounded number of identities, turn cumulative counters into
differences, and can be stopped and restarted from a checkpoint. Beside them
stands the argv composer, which parses, de-duplicates and rewrites the command
lines of the harnesses.

The **gate observation kernels** (`scripts/gates/darwin`) decide from what an
operating system shows whether a test run stayed inside its boundary: the walk
over an address space, the reassembly of framed records from a pipe, the
verdict over a TAP report, the ancestry of a process, the roles of the processes
of a run, the arguments of a process, the headers of an archive, and an
acknowledgement that may only follow a live observation.

Each kernel is modelled with the state it has in the source: the projectors,
`Trace`, `Roles` and `ReaderBarrier` are classes whose methods update fields,
the searches and parsers are loops over arrays or indices. Every such method is
proved equal to a function of the old state and the input, and the laws are
proved about that function: over all inputs, all runs, all cuttings, all
interleavings.

## Layout

| files | what they hold |
|---|---|
| `Wrappers`, `Lists`, `Text`, `Ordered`, `Runs`, `Counters`, `Checkpoint` | optional values and results; sequences; white space; insertion-ordered sets and maps; runs as folds; token counters; JSON values and the round trips of their parts |
| `Args`, `ArgsTokens`, `SpawnPlans`, `MusePlan` | argv composition, what its tokens mean, the shipped grammars, the codex, grok and muse spawn plans |
| `Grok`, `GrokProofs`, `GrokLog`, `GrokCheckpoint` | the Grok projector, its laws over runs, the log read as a whole, its checkpoint |
| `Agy`, `AgyProofs`, `AgyLog`, `AgyCheckpoint` | the Agy projector, likewise |
| `Muse`, `MuseProofs`, `MuseLog`, `MuseCheckpoint`, `MuseCommands` | the Muse projector, likewise, and the ids of its commands |
| `Codex`, `CodexProofs`, `CodexLog`, `CodexCheckpoint` | the Codex projector, likewise |
| `Context`, `ContextSources` | sizes of context sources, what each counts as, and the Codex totals made of them |
| `Quiescence`, `QuiescenceProofs`, `PlatformProof` | the region walk, what a completed walk means, the proof about a platform process |
| `Trace`, `TraceProofs`, `TraceChecks`, `Reassembly` | the record reader, any stream, what one line does, and what senders get back |
| `Tap`, `TapProofs`, `TapChecks`, `TapAmbiguity` | the TAP verdict, what it means for a forest of tests and on the lines of a report, and the names that deceive it |
| `Signals`, `Roles`, `RolesProofs` | signal authorization, process roles |
| `ProcArgs`, `NodeFlags`, `NodeArgv` | the kernel's argument layout, the flags before an entry, and both together |
| `Pax`, `PaxProofs`, `PaxChecks`, `Ustar` | the archive header walk, its laws, what it accepts and refuses, and archives with ustar header fields |
| `ReaderProof`, `ReaderProofMeaning` | the proof that a complete reader was observed, and what it shows |
| `ReaderBarrier`, `ReaderBarrierProofs`, `ReaderBarrierChecks` | the acknowledgement barrier, its safety over runs, the checks of a drain and the runs that succeed |

Lines of a log are modelled as already parsed rows. What the world answers (the
kernel, the clock, sockets, `realpath`, JSON, base64, UTF-8, tar headers,
regular expressions) is a parameter of the model; a theorem that needs more than
an arbitrary answer says so in its preconditions, as `Reports` does for the
kernel that lists regions, or `Faithful` for a codec that reads what it wrote.
Integers stand for the source's numbers; 64-bit addresses and the signed 32-bit
argument count are modelled with their bounds.

## Where a law has a boundary

The proofs of these laws need conditions; here is where the code does not meet the
law, with the lemmas that say so:

* Composing layers in groups (`v2/adapters/src/args.ts:88-94`): a layer that ends
  in a flag missing its value swallows the first token of the next one when the
  group is read again. `ComposedReadsBackIff` gives the exact condition for reading
  back, on which regrouping rests, `DanglingFlagBreaksRegrouping` a failing family.
* The grok spawn plan (`v2/adapters/src/args.ts:252`): the same happens exactly
  when something is lifted, `stdio` is absent and argv ends in such a flag.
* The muse spawn plan (`v2/adapters/src/args.ts:335-338`): the switches that `--yolo`
  stands for are appended, so a flag without value at the end of argv swallows the
  first of them, and one whose text stands elsewhere on argv, as a value, is not added.
  `YoloTakesEffectIff` gives the exact condition, `SwallowingFails` and `HidingFails`
  the failing families.
* The region walk (`scripts/gates/darwin/quiescence.h:146-148`): a mapping of one
  byte that starts at an empty entry is passed over when the walk comes to that entry
  from below; `SkipsIff` says exactly when. Page-sized mappings exclude it.
* The reverse scan of a TAP report (`scripts/gates/darwin/focused_tap.py:33-41`) is
  right exactly when no sibling is indented less than an earlier one. Full names are
  ambiguous exactly for names that hold ` > `, the ends of a name counting as spaces:
  `CutIff`, and `JointDeceives` for what that does to the verdict.
* The argument parser (`scripts/gates/darwin/argv_observation.h:16`) skips the NUL of
  an empty first argument as padding.
* A pax record's length is not unique and may have leading zeros, and the body of the
  last member may be cut short without refusal by this walk: `TwoLengths`,
  `LeadingZerosAreRead`, `LastBodyMayBeCut`.

## Model

| member | source | states |
|---|---|---|
| `Args.ParseArgUnits` | v2/adapters/src/args.ts:66-118 | The index loop splits argv into exactly the units of the grammar: a known flag with its value, in one token or two, a boolean flag, or a token kept as it is. |
| `Args.ParseLossless` | v2/adapters/src/args.ts:66-118 | Printing the units of any argv gives that argv back; a flag that misses its value is kept verbatim and can only be the last unit. |
| `Args.ReadBack` | v2/adapters/src/args.ts:66-118 | Any units that parsing can produce, printed and parsed again, are read as themselves if and only if no unit but the last is a flag missing its value. |
| `Args.IndexUnits` | v2/adapters/src/args.ts:132-138 | The two maps hold the first and the last position of every identity. |
| `Args.DedupeUnits` | v2/adapters/src/args.ts:130-144 | The filter over the two maps keeps exactly the first boolean and the last other unit of each identity, and every unit without identity. |
| `Args.OneSurvivor` | v2/adapters/src/args.ts:130-144 | Of all units with one identity exactly one survives: the first if they are boolean, the last otherwise. |
| `Args.DedupeKeepsIds` | v2/adapters/src/args.ts:130-144 | De-duplication loses no identity. |
| `Args.DedupeInside` | v2/adapters/src/args.ts:130-144 | De-duplicating any stretch of the units first does not change the de-duplication of the whole. |
| `Args.ComposeArgv` | v2/adapters/src/args.ts:124-127 | Composing prints the de-duplicated units of all layers, an absent layer counting as empty. |
| `Args.LaterLayerWins` | v2/adapters/src/args.ts:120-144 | Every flag given in some layer is composed exactly once: a boolean where it first stood, any other with the value with which it last stood. |
| `Args.ComposedReadsBackIff` | v2/adapters/src/args.ts:124-127 | A composed argv reads back as the units it was composed of if and only if no surviving flag but the last misses its value. |
| `Args.ComposeIdempotent` | v2/adapters/src/args.ts:124-127 | Composing an already composed argv changes nothing, when no surviving flag but the last misses its value. |
| `Args.ComposeRegroups` | v2/adapters/src/args.ts:120-144 | Composing any run of consecutive layers first gives the same argv as composing all layers at once, when the run reads back as it was composed, and for grammars that tell boolean from keyed identities. |
| `Args.SafeGroupSurvives` | v2/adapters/src/args.ts:88-144 | That is so whenever no layer of the run but the last ends in a flag missing its value. |
| `Args.DanglingFlagBreaksRegrouping` | v2/adapters/src/args.ts:88-94 | The condition is needed: for any two valued flags there are layers, the first ending in a flag without value, whose regrouping changes the argv. |
| `Args.DanglingLayerBreaksRegrouping` | v2/adapters/src/args.ts:88-94 | One such case in full: `--model`, then `--effort high`, then `--effort low`. |
| `ArgsTokens.UnitIff` | v2/adapters/src/args.ts:58-118 | The unit at the front of any argv is the one that its tokens say, and only that one: a flag in any spelling, as `flag=value` or as two tokens, its canonical flag, value and identity, or a token kept as it is. |
| `ArgsTokens.KeyedLayers` | v2/adapters/src/args.ts:78-144 | Two keyed flags in any spellings, one in each layer: the later displaces the earlier if and only if their canonical flags and the text before the first `=` of their values agree; else both are composed. |
| `ArgsTokens.ValuedLayers` | v2/adapters/src/args.ts:70-144 | Likewise two valued flags: the later displaces the earlier if and only if their canonical flags agree and the flag may not be repeated. |
| `ArgsTokens.OtherLayers` | v2/adapters/src/args.ts:111-144 | A boolean flag given again in any spelling stays as it first stood; tokens that are no flags all stay. |
| `ArgsTokens.DedupePicks` | v2/adapters/src/args.ts:130-144 | Of any units those without identity, first booleans and last others are left, each once and in the order in which they stood. |
| `SpawnPlans.ShippedGrammarsSeparated` | v2/adapters/src/args.ts:151-299 | The five shipped grammars tell boolean from keyed identities, so the regrouping law holds for each. |
| `SpawnPlans.ConfigLayers` | v2/adapters/src/args.ts:187-299 | In the two shipped grammars with keyed flags, `--config` overrides of different keys in different layers are both composed, and the later one alone when their keys agree. |
| `SpawnPlans.CodexSpawnPlan` | v2/adapters/src/args.ts:270-287 | The loop leaves on argv the units that are not absorbed, in order, lists the absorbed ones and reports the last model. |
| `SpawnPlans.CodexPlanConserves` | v2/adapters/src/args.ts:270-287 | Every token goes to exactly one side; no absorbed flag can be read from the planned argv; planning it again changes nothing. |
| `SpawnPlans.AbsorbingPlanConserves` | v2/adapters/src/args.ts:270-287 | The same for any grammar and any set of absorbed flags. |
| `SpawnPlans.LastValueIff` | v2/adapters/src/args.ts:270-287 | The model that a plan reports is the value of the last unit of its flag that has one, if there is one. |
| `SpawnPlans.PickIff` | v2/adapters/src/args.ts:270-287 | A unit is absorbed, or left on argv, by whether its flag is one of those listed. |
| `SpawnPlans.GrokSpawnPlan` | v2/adapters/src/args.ts:230-253 | The loop puts the lifted flags, respelled, between what stood before and after the first `stdio`. |
| `SpawnPlans.LiftingPlanIntends` | v2/adapters/src/args.ts:230-253 | What the plan prints keeps the order of what is not lifted, and that of the lifted flags, respelled, in front of the subcommand; its model is the last one. |
| `SpawnPlans.LiftingPlanReadsBackIff` | v2/adapters/src/args.ts:230-253 | The planned argv is read as intended if and only if it is not the case that something was lifted, there is no `stdio`, and argv ends in a flag without value. |
| `SpawnPlans.LiftingPlanIdempotent` | v2/adapters/src/args.ts:230-253 | Outside that case planning a planned argv again changes neither argv nor model. |
| `SpawnPlans.GrokPlanSound` | v2/adapters/src/args.ts:230-253 | Both laws for the shipped grok grammar and every argv. |
| `SpawnPlans.GrokPlanMisreadsExample` | v2/adapters/src/args.ts:230-253 | One argv in that case: the lifted `--effort` becomes the value of `--debug-file`. |
| `MusePlan.MuseSpawnPlan` | v2/adapters/src/args.ts:316-340 | The loop lifts the settings of the wire flags, the last one counting, refuses the first value that is not known, and under `--yolo` adds the two switches that are missing. |
| `MusePlan.WirePlanReadsBackIff` | v2/adapters/src/args.ts:316-340 | The planned argv is read as intended if and only if it is not the case that `--yolo` adds a switch and argv ends in a flag without value. |
| `MusePlan.YoloTakesEffectIff` | v2/adapters/src/args.ts:307-338 | Under `--yolo` both switches are read from the planned argv if and only if that is not the case and no switch is hidden by its text standing elsewhere on argv. |
| `MusePlan.WirePlanSettlesIff` | v2/adapters/src/args.ts:316-340 | Planning a planned argv again sets nothing and leaves it unchanged, if and only if no wire flag stood at its end without a value and swallowed an added switch. |
| `MusePlan.SettingsIff` | v2/adapters/src/args.ts:316-340 | The plan is refused if and only if some value is not known, with the error of the first such; else it sets the last model unless that is empty, the last effort, and the approval mode set last, all allowed under `yolo` and when none is set. |
| `MusePlan.MusePlanSound` | v2/adapters/src/args.ts:294-340 | These laws for the shipped muse grammar and every argv. |
| `MusePlan.SwallowingFails` | v2/adapters/src/args.ts:335-338 | For any valued flag without value after `--yolo`: it takes the first added switch as its value, so that the switch is off. |
| `MusePlan.HidingFails` | v2/adapters/src/args.ts:335-338 | For any valued flag whose value spells a switch: the switch counts as present, is not added, and is off. |
| `MusePlan.YoloFailsExamples` | v2/adapters/src/args.ts:335-338 | One argv of each case, and one whose planned argv is read differently when planned again. |
| `Grok.GrokProjector.PushLine` | v2/adapters/src/grok.ts:689-845 | One line changes the four fields and publishes events as the step function of the state says. |
| `Grok.GrokProjector.FlushOpenChunk` | v2/adapters/src/grok.ts:585-598 | Closing the open chunk publishes its text once, unless it is blank. |
| `Grok.GrokProjector.WithoutPromptMirror` | v2/adapters/src/grok.ts:610-624 | The awaited echo is cut from the text: nothing is shown while the text spells a prefix of it, the surplus once it is complete. |
| `Grok.GrokProjector.ProjectTool` | v2/adapters/src/grok.ts:640-687 | A tool update publishes the call once and the result once, by the remembered state of its call id. |
| `GrokProofs.PromptEchoShownOnce` | v2/adapters/src/grok.ts:585-624 | For every way of cutting the echo of a prompt followed by more text into user chunks, the projection shows the prompt once and then exactly the rest, dropped only when blank. |
| `GrokProofs.EchoFrom` | v2/adapters/src/grok.ts:610-624 | Whatever user chunks arrive, what is held is their text less a prefix of the awaited prompt. |
| `GrokProofs.RecutChangesNothing` | v2/adapters/src/grok.ts:600-608 | Two cuttings of the same assistant text lead to the same events and the same state. |
| `GrokProofs.RunConserves` | v2/adapters/src/grok.ts:579-849 | Over any run from any state, the assistant messages published are, to the letter and in order, the pieces of the assistant text heard, cut where something came between, less the blank pieces; what is held is the last piece. |
| `GrokProofs.ProjectionSaysEverything` | v2/adapters/src/grok.ts:579-849 | A flushed projection of any log publishes exactly those pieces that are not blank, and the pieces together are all that was heard. |
| `GrokProofs.ToolsPairUp` | v2/adapters/src/grok.ts:640-687 | In every prefix of the events of any run, a call id has at most one call, and no more results than calls. |
| `GrokLog.ProjectionIsTheLog` | v2/adapters/src/grok.ts:579-849 | The flushed projection of any log is what the log says when it is read as a whole: every row by the rows before it, and one event, with the first timestamp, for each stretch of speech in one voice that is not blank. |
| `GrokLog.ToolPublished` | v2/adapters/src/grok.ts:640-687 | After any log: an update publishes the call of its id if and only if it is the first with that id, and the result if and only if it is the first with an output or a terminal last status; name, input, error flag and output are those of the log. |
| `GrokLog.StatusWords` | v2/adapters/src/grok.ts:458-473 | A status is terminal for eight words in any case, and a failure for four of them. |
| `GrokLog.CompactionsTellApart` | v2/adapters/src/grok.ts:694-703 | Two compactions without an event id count as one if and only if they agree in time and both token counts. |
| `GrokLog.SummaryIff` | v2/adapters/src/grok.ts:475-487 | A text is a compaction summary if and only if, behind its leading white space and with paired line ends made one, it starts with the whole scaffold. |
| `GrokCheckpoint.RunSound` | v2/adapters/src/grok.ts:579-816 | Every state reachable from a sound one is sound: no call id is remembered twice. |
| `GrokCheckpoint.RestoreRoundTrip` | v2/adapters/src/grok.ts:544-583 | The validator accepts the checkpoint of every sound state, and restoring it gives back that state, insertion order included. |
| `GrokCheckpoint.AcceptedIff` | v2/adapters/src/grok.ts:522-583 | A value is accepted and restored as a state if and only if the state is sound and the value is its checkpoint. |
| `GrokCheckpoint.RestartTransparent` | v2/adapters/src/grok.ts:564-583 | Stopping after any prefix, storing the checkpoint and restarting from it changes no event of the rest. |
| `Agy.UsageDelta` | v2/adapters/src/agy.ts:164-179 | The loop subtracts, counter by counter, the previous value wherever there is one that is not larger. |
| `Agy.RememberEmission` | v2/adapters/src/agy.ts:120-126 | A remembered identity is added at the end, and the oldest is dropped beyond 1024. |
| `Agy.AgyProjector.AdoptThread` | v2/adapters/src/agy.ts:238-251 | A new conversation forgets fragments, emitted identities and the usage baseline. |
| `Agy.AgyProjector.PushLine` | v2/adapters/src/agy.ts:273-395 | One line changes the fields and publishes events as the step function of the state says. |
| `Agy.AgyProjector.Flush` | v2/adapters/src/agy.ts:442-452 | The end of the log publishes the held fragments that have text and have not been published. |
| `AgyProofs.TraceFaithful` | v2/adapters/src/agy.ts:117-126 | After every run the three sets hold exactly the most recent 1024 identities emitted in the thread, and no held fragment has an identity among them. |
| `AgyProofs.EmittedOncePerWindow` | v2/adapters/src/agy.ts:117-126 | Within a thread, an identity of any of the three kinds is emitted again only after 1024 other distinct ones of its kind. |
| `AgyProofs.SaidIdsMatch` | v2/adapters/src/agy.ts:262-298 | The identities the window is counted on are those of the published messages, one each, in order. |
| `AgyProofs.ToolPublishedIff` | v2/adapters/src/agy.ts:300-329 | A tool step, in the same thread or a new one, is published if and only if its identity is not among the most recent 1024 of its kind in that thread. |
| `AgyProofs.HeldIsGathered` | v2/adapters/src/agy.ts:262-298 | After every run, what is held for a step is what the log gathered for it: its deltas, joined, since the thread changed, a turn was reported, the log ended or the step was done. |
| `AgyProofs.MessagePublishedIff` | v2/adapters/src/agy.ts:262-298 | After every run, a step that is done publishes a message if and only if its identity is not among the most recent 1024 and the gathered text is not blank; the message is exactly that text. |
| `AgyProofs.FlushSays` | v2/adapters/src/agy.ts:442-452 | The end of the log publishes, for each step with held text, exactly the text that the log gathered for it. |
| `AgyProofs.UsageTelescopes` | v2/adapters/src/agy.ts:341-355 | Over every run and for every counter, the published turn usages add up to the last cumulative value of each unbroken segment; a segment breaks exactly when the thread changes, the turn number does not rise, or the counter is missing or falls. |
| `AgyProofs.CounterNegativeIff` | v2/adapters/src/agy.ts:164-179 | After every run, a published counter is negative if and only if the reported value is and does not continue the segment of the last report; then it is the reported value. |
| `AgyLog.ProjectionIsTheLog` | v2/adapters/src/agy.ts:227-454 | Over any log, every line publishes what the lines before it call for: messages with their gathered text, tool steps outside the window of their kind, turn starts, reports and unknown events, each exactly and in order. |
| `AgyLog.ReportPublished` | v2/adapters/src/agy.ts:331-393 | After any log, a report publishes its response if and only if no assistant text was published since the last `init`, user turn or report; then the growth of each counter, the failure, and the end of the turn with its id and duration. |
| `AgyLog.IdsTellApart` | v2/adapters/src/agy.ts:257-260 | Two steps have one identity if and only if their numbers and their threads agree, an unnamed thread counting as `unknown`. |
| `AgyCheckpoint.ReachableSound` | v2/adapters/src/agy.ts:117-126 | Every reachable state is within the bounds that the validator checks and repeats nothing. |
| `AgyCheckpoint.RestoreRoundTrip` | v2/adapters/src/agy.ts:203-236 | The size-bounded validator accepts the checkpoint of every such state and restores it exactly, insertion order included. |
| `AgyCheckpoint.AcceptedIff` | v2/adapters/src/agy.ts:203-243 | A value is accepted and restored as a state if and only if the state is within the bounds, repeats nothing, and the value is its checkpoint. |
| `AgyCheckpoint.RestartTransparent` | v2/adapters/src/agy.ts:397-409 | Stopping any run anywhere and restarting from the checkpoint changes no event. |
| `Muse.AddUsage` | v2/adapters/src/muse.ts:332-340 | The loop adds usages counter by counter; a counter present on either side is present in the sum. |
| `Muse.PromptCountedOnce` | v2/adapters/src/muse.ts:310-330 | Uncached input and the two cache counters of one call add up to its prompt tokens, or to the cached part when that is larger. |
| `MuseLog.ReportedCounters` | v2/adapters/src/muse.ts:310-330 | A report of a call gives usage if and only if it has a usage object, prompt or total; each of the six counters is there exactly when its field is, with its value. |
| `Muse.MuseProjector.PushLine` | v2/adapters/src/muse.ts:555-655 | One row changes the two collections and publishes events as the step function of the state says. |
| `Muse.MuseProjector.RecordUsage` | v2/adapters/src/muse.ts:579-591 | A report moves its turn to the end with the sum, and evicts the first turn beyond 1024. |
| `MuseProofs.UsageConserved` | v2/adapters/src/muse.ts:579-614 | Over every run and for every counter: received equals published plus held plus evicted. |
| `MuseProofs.TurnsExact` | v2/adapters/src/muse.ts:579-614 | While at most 1024 turns are open, the accumulator of each is exactly the sum of its reports since it was last completed, and nothing is evicted. |
| `MuseProofs.TurnUsagePublishedExactly` | v2/adapters/src/muse.ts:592-614 | Then completing a turn publishes exactly that sum, and received equals published plus held. |
| `MuseProofs.OldestFirst` | v2/adapters/src/muse.ts:406-413 | After every run the accumulators stand in the order of their last reports, so eviction removes the least recently updated turn. |
| `MuseProofs.StartsCoverCompletions` | v2/adapters/src/muse.ts:563-578 | Over every run and for every item: published starts are completions plus forgotten openings plus one while it is open, so no completion is without an unconsumed start, evictions included. |
| `MuseLog.ProjectionIsTheLog` | v2/adapters/src/muse.ts:402-655 | Over any log, every row publishes what the rows before it call for: a start when its item is not open, a completion with the start that was missed, a finished turn with its failure, the sum of its reports and their last model. |
| `MuseCheckpoint.ReachableSound` | v2/adapters/src/muse.ts:402-413 | Every reachable state is within the limits that the validator checks and repeats nothing. |
| `MuseCheckpoint.RestoreRoundTrip` | v2/adapters/src/muse.ts:295-308 | The validator accepts the checkpoint of every such state and restores it exactly, insertion order included. |
| `MuseCheckpoint.AcceptedIff` | v2/adapters/src/muse.ts:295-400 | A value is accepted and restored as a state if and only if the state is within the limits, repeats nothing, and the value is its checkpoint. |
| `MuseCheckpoint.RestartTransparent` | v2/adapters/src/muse.ts:633-638 | Wherever a log is cut in two, restarting from the checkpoint taken there changes no event. |
| `MuseCommands.MessageReadBackIff` | v2/adapters/src/muse.ts:81-96 | The command id of every message is a UUID of version 7 at time zero, and the message number is read back from it if and only if it has at most eighteen hexadecimal digits. |
| `MuseCommands.MessagesTellApart` | v2/adapters/src/muse.ts:92-96 | Two messages within that size have the same command id if and only if they are the same message. |
| `MuseCommands.FreshIsUuid` | v2/adapters/src/muse.ts:86-90 | A fresh command id is a UUID of version 7 whose time is the given one in forty-eight bits, for all random digits. |
| `MuseCommands.FreshIsNoMessage` | v2/adapters/src/muse.ts:86-96 | A fresh command id is never the id of a message, unless its time is zero in forty-eight bits. |
| `Codex.CodexProjector.EmitRolloutMessage` | v2/adapters/src/codex.ts:751-761 | A message is published unless its identity is in the set, which then holds it. |
| `Codex.CodexProjector.PushRollout` | v2/adapters/src/codex.ts:763-828 | One rollout row changes the turn flag and the message set and publishes events as the step function says. |
| `Codex.CodexProjector.PushLine` | v2/adapters/src/codex.ts:846-983 | One line changes the five fields and publishes events as the step function of the state says. |
| `Codex.CodexProjector.Flush` | v2/adapters/src/codex.ts:984-988 | The end of a log forgets open items and fork requests, and nothing else. |
| `CodexProofs.NormalKeepsInk` | v2/adapters/src/codex.ts:457-459 | Normalising a text changes nothing but its white space. |
| `CodexProofs.NormalAgain` | v2/adapters/src/codex.ts:457-459 | Normalising a normalised text changes nothing. |
| `CodexProofs.IdentitiesTellApart` | v2/adapters/src/codex.ts:457-459 | Two messages have one identity if and only if they have one role and one normal form. |
| `CodexLog.NormalIsWords` | v2/adapters/src/codex.ts:457-459 | The normal form of a text is its words, the longest runs without white space, with single spaces between them. |
| `CodexLog.SameIdentityIff` | v2/adapters/src/codex.ts:457-459 | Two messages have one identity if and only if they have one role and the same words. |
| `CodexProofs.RunFollows` | v2/adapters/src/codex.ts:743-863 | After every run the fork requests are those of the log without response, the turn flag says whether a turn was opened and not completed, and the message set is what was said since, in order of first occurrence. |
| `CodexProofs.MessagePublishedIff` | v2/adapters/src/codex.ts:751-800 | After every run a rollout message is published if and only if no message of its role and normal form came before it in the turn, from either kind of row. |
| `CodexProofs.StartPublishedIff` | v2/adapters/src/codex.ts:763-779 | After every run a turn start is published if and only if no turn is open. |
| `CodexProofs.TurnsAndForksCount` | v2/adapters/src/codex.ts:763-863 | Over every run there are no more turn starts than turn ends, one open turn aside, and no more snapshots of a request id than fork requests with it. |
| `CodexProofs.ItemsFollow` | v2/adapters/src/codex.ts:924-964 | After every run the started items are those last started under their id and not completed since. |
| `CodexProofs.CompletionMergesStart` | v2/adapters/src/codex.ts:953-964 | After every run a completed item is published merged over its last start, and paired with it exactly when one was seen since the last completion. |
| `CodexProofs.MergeKeepsFields` | v2/adapters/src/codex.ts:490-499 | A merged item has every field of either side, with the completed value where both have one; an invocation that is an object on either side is merged the same way, field by field. |
| `CodexLog.ProjectionIsTheLog` | v2/adapters/src/codex.ts:743-988 | Over any log, every line publishes what the lines before it call for: a message unless its words were said in the turn, usage with the last requested model, the snapshot of a pending fork that has a result, items merged over their starts, turn boundaries and the rest. |
| `CodexCheckpoint.RunSound` | v2/adapters/src/codex.ts:743-988 | Every state that a log leads to from a sound one is sound: nothing is remembered twice. |
| `CodexCheckpoint.RestoreRoundTrip` | v2/adapters/src/codex.ts:721-749 | The validator accepts the checkpoint of every sound state, and restoring it gives back that state, insertion order included. |
| `CodexCheckpoint.AcceptedIff` | v2/adapters/src/codex.ts:721-749 | A value is accepted and restored as a state if and only if the state repeats nothing and the value is its checkpoint. |
| `CodexCheckpoint.RestartsTransparent` | v2/adapters/src/codex.ts:743-844 | However often a run is stopped and restarted from its checkpoint, the events and the last state are those of the run in one piece. |
| `Quiescence.RootInodeMatch` | scripts/gates/darwin/quiescence.h:74-90 | The binary search of the sorted table finds an inode if and only if it is in the table. |
| `Quiescence.RegionWalk` | scripts/gates/darwin/quiescence.h:113-171 | The loop ends as the walk does, counts the files it compared, and sets the image flag exactly when the image is given as the file of a region and is not in the table. |
| `QuiescenceProofs.WalkRises` | scripts/gates/darwin/quiescence.h:116-168 | Whatever the kernel answers, each address asked is above the last one and fits 64 bits, and there are at most 65536. |
| `QuiescenceProofs.RejectedByRoots` | scripts/gates/darwin/quiescence.h:150-156 | A region with a file in the table always rejects the walk; while the process stays the same, nothing else does. |
| `QuiescenceProofs.WalkIsTold` | scripts/gates/darwin/quiescence.h:113-171 | Whatever the kernel answers: every turn but the last saw the same process and a region of no root above its address and went on behind it; the walk completes if and only if the last turn saw the end twice with the process the same at all three checks, and is rejected if and only if a check that it made failed or a region with a file in the table was given. |
| `QuiescenceProofs.CompleteKeptProcess` | scripts/gates/darwin/quiescence.h:122-133 | When a walk completes, the birth check held at every address asked, and both checks at the end. |
| `QuiescenceProofs.ReplacedIsRejected` | scripts/gates/darwin/quiescence.h:122-133 | A process that is another at any check that the walk makes rejects it there. |
| `QuiescenceProofs.SkipsIff` | scripts/gates/darwin/quiescence.h:113-171 | Against a kernel that gives the lowest region ending above the address: a completed walk passes over a mapped region if and only if it is one byte at an empty entry that the walk comes to from below, which the layout alone determines. |
| `QuiescenceProofs.CompleteSeesEverything` | scripts/gates/darwin/quiescence.h:113-171 | So with no mapping of a single byte, as with whole pages, a completed walk was given every mapped region, and none is backed by a file in the table. |
| `QuiescenceProofs.CompletesIff` | scripts/gates/darwin/quiescence.h:113-171 | Without empty entries the walk completes if and only if there are 1 to 65535 regions, none has a file in the table, and the last ends below the top address; it was then given the regions one by one. |
| `QuiescenceProofs.SingleByteIsSkipped` | scripts/gates/darwin/quiescence.h:136-149 | One such layout: the walk completes although the skipped byte is backed by a file in the table. |
| `PlatformProof.CheckImage` | scripts/gates/darwin/quiescence.h:172-197 | The failure number names the first condition before the walk that does not hold. |
| `PlatformProof.PlatformFdProof` | scripts/gates/darwin/quiescence.h:172-206 | The proof succeeds exactly when all conditions hold and the walk completes having been given the image; otherwise the number says how it ended. |
| `PlatformProof.AllowedIff` | scripts/gates/darwin/quiescence.h:181-186 | The image must lie in one of four places. |
| `PlatformProof.ProvenProcessMapsNoRoot` | scripts/gates/darwin/quiescence.h:172-206 | A proven process maps its own allowed image and no file of the table, and was the same at every birth check, before the walk and in it. |
| `Trace.Trace.Take` | scripts/gates/darwin/focused_trace.py:67-90 | One line changes frames and records, and fails, as the step function says, in the order of the checks. |
| `Trace.Trace.Drain` | scripts/gates/darwin/focused_trace.py:53-90 | The nested loops over reads and lines leave buffer, frames, records and count as the specification of the reader says; an error stops them at once. |
| `TraceProofs.FeedConcat` | scripts/gates/darwin/focused_trace.py:63-67 | Taking the complete lines of a text in two parts is taking them at once. |
| `TraceProofs.SplittingIsInvisible` | scripts/gates/darwin/focused_trace.py:53-90 | Up to the size limit, how the stream is cut into reads changes neither frames nor records nor error, nor the rest of the buffer. |
| `TraceProofs.ReceiptIsBounded` | scripts/gates/darwin/focused_trace.py:60-62 | Without an error every byte was counted and the total is within 2097152. |
| `TraceProofs.FeedSound` | scripts/gates/darwin/focused_trace.py:71-80 | Whatever arrives, a record in the making is within its bounds and, while reading goes on, misses a part: joining the parts never meets an absent one. |
| `TraceChecks.LineDecides` | scripts/gates/darwin/focused_trace.py:67-90 | Every line, whatever was read before: the error that it ends reading with or none, the record that it adds or none, and what is held afterwards; a refused record is kept and ends reading, one of a foreign pid is not kept. |
| `TraceChecks.FeedTakesLines` | scripts/gates/darwin/focused_trace.py:63-67 | What is read of any text are its lines, in order, up to the first error; an unfinished line waits. |
| `TraceChecks.ExceededIff` | scripts/gates/darwin/focused_trace.py:60-63 | Reading ends at the size limit if and only if a piece goes over it before any other error. |
| `Reassembly.DeliversMessage` | scripts/gates/darwin/focused-preload.mjs:37-41 | Once all chunks of at most 192 bytes are there, joining them gives exactly the bytes that were cut. |
| `Reassembly.Reassembles` | scripts/gates/darwin/focused_trace.py:53-90 | For any interleaving of the frames of any messages and any cutting into reads: no error, the records of the complete messages in the order of their last frames, and exactly the messages under way are held. |
| `Reassembly.ReassemblesAll` | scripts/gates/darwin/focused_trace.py:53-90 | When every frame was sent, all records are read and neither buffer nor frames hold anything. |
| `Reassembly.DeliveredOnce` | scripts/gates/darwin/focused_trace.py:80-88 | A message is delivered if and only if all its frames were sent, and never twice. |
| `Tap.NameRows` | scripts/gates/darwin/focused_tap.py:33-41 | The reverse loop with its stack of parents names every row after the chain of nearest later shallower rows. |
| `Tap.Adjudicate` | scripts/gates/darwin/focused_tap.py:8-64 | The errors are exactly the violations of the report: lines, rows, counts of expected names, exit code, root plan and version; each expected name selects its row if there is exactly one, and else is missing or a duplicate. |
| `TapProofs.ForestReadRight` | scripts/gates/darwin/focused_tap.py:33-41 | For any forest printed children first with children indented deeper, the scan gives every row its path from the root if and only if no sibling is indented less than an earlier one. |
| `TapProofs.JoinedInjective` | scripts/gates/darwin/focused_tap.py:38 | Full names tell paths apart when no name holds ` > `, the ends of a name counting as spaces. |
| `TapProofs.JoinedPrefix` | scripts/gates/darwin/focused_tap.py:45 | Then a full name and a joint begin another full name only for an ancestor. |
| `TapAmbiguity.CutIff` | scripts/gates/darwin/focused_tap.py:38 | A full name can be cut back into its path at its signs if and only if no name of the path holds one. |
| `TapAmbiguity.JointIsAmbiguous` | scripts/gates/darwin/focused_tap.py:38 | Every name that holds one, inside, at either end or as the whole name, is part of a path with the same full name as another path. |
| `TapAmbiguity.TwinsDeceive` | scripts/gates/darwin/focused_tap.py:38-64 | For any two paths with one full name: the report of the one is ok when the other is expected, which is not there. |
| `TapAmbiguity.JointDeceives` | scripts/gates/darwin/focused_tap.py:38-64 | So for every such name there is an ok report of a proper forest with a test of that name in which the wanted test is missing. |
| `TapProofs.CleanIff` | scripts/gates/darwin/focused_tap.py:42-64 | The verdict is ok if and only if the process exited with 0, every row passes and leads to an expected name, every expected name has exactly one row, and root rows are numbered 1 to n as the one plan says. |
| `TapChecks.ViolatesIff` | scripts/gates/darwin/focused_tap.py:8-64 | Each violation is reported if and only if the report has it, stated on its lines: summaries, bailouts, rows, full names, the one plan and the numbers of the root rows, exit code and version. |
| `TapChecks.SelectsIff` | scripts/gates/darwin/focused_tap.py:47-56 | An expected name selects the row that alone has it; it is missing when no row has it, and a duplicate when two have. |
| `TapChecks.UniqueIff` | scripts/gates/darwin/focused_tap.py:8-12 | Expected names are taken as unique if and only if none is given twice. |
| `TapProofs.CleanForest` | scripts/gates/darwin/focused_tap.py:8-64 | An ok report of a forest whose names hold no ` > `: every test passed, every wanted path is there exactly once, and every test there is wanted or above a wanted one. |
| `Signals.Descendant` | scripts/gates/darwin/focused_signal.py:13-25 | The walk up the recorded parents ends on any records, cyclic ones too, and accepts exactly the pids with a line of current births up to an approved child of the requester. |
| `Signals.IndexBirths` | scripts/gates/darwin/focused_signal.py:6-11 | The table is built if and only if no pid was retained with two births. |
| `Signals.NoWayAround` | scripts/gates/darwin/focused_signal.py:13-25 | A pid that comes after itself on the way up descends from nobody. |
| `Signals.LineIsWithin` | scripts/gates/darwin/focused_signal.py:13-25 | A line of descent of any length is found by as many steps of the walk. |
| `Signals.WithinHasLine` | scripts/gates/darwin/focused_signal.py:13-25 | What the walk finds is a line of descent. |
| `Signals.LaunchedIff` | scripts/gates/darwin/focused_signal.py:13-25 | A pid descends by the table if and only if a line of recorded and current births leads from it to an approved child of the requester. |
| `Signals.Authorize` | scripts/gates/darwin/focused_signal.py:1-32 | Stated on the births themselves: authorization succeeds if and only if the records are unambiguous, the requester is as recorded, the leader is an approved launch with a line of current births up to the requester, and a group holds its leader and launched processes only; else the error is that of the first condition that fails. |
| `Roles.Roles.Observe` | scripts/gates/darwin/focused_roles.py:9-34 | One observation accepts a known process only unchanged, a new one only in its place; a refusal changes nothing. |
| `Roles.Roles.Finish` | scripts/gates/darwin/focused_roles.py:36-40 | Success exactly when the counts of the roles and of internal runners are those of the mode. |
| `RolesProofs.IdentitiesOnlyGrow` | scripts/gates/darwin/focused_roles.py:9-34 | Over any observations no identity changes its birth, role or entry, and none is forgotten. |
| `RolesProofs.RunSound` | scripts/gates/darwin/focused_roles.py:9-34 | Over any observations every process hangs where its role demands, and there is at most one internal runner, only in plain mode. |
| `RolesProofs.FinishedRunIsOneLine` | scripts/gates/darwin/focused_roles.py:9-40 | After any observations, `finish` succeeds if and only if the identities are exactly one chain root, internal runner in plain mode, host, reader, each the parent of the next. |
| `RolesProofs.FittingIsAccepted` | scripts/gates/darwin/focused_roles.py:9-34 | A new process that fits below one seen before is accepted. |
| `RolesProofs.ObservedIff` | scripts/gates/darwin/focused_roles.py:9-34 | One observation, stated on the identities seen: an unknown entry is refused, a known pid is accepted if and only if it is as before, a new one is added if and only if it hangs where its role belongs, and else refused with the error of its role. |
| `RolesProofs.TopDownCompletes` | scripts/gates/darwin/focused_roles.py:9-40 | A proper chain of either mode observed from the root down is accepted throughout and complete. |
| `ProcArgs.ParseArgvOnly` | scripts/gates/darwin/argv_observation.h:5-25 | The loops over the buffer fill the spans that the layout defines, or fail with a count of zero. |
| `ProcArgs.ParsedSpansAreSound` | scripts/gates/darwin/argv_observation.h:5-25 | On any buffer, success yields as many spans as the count says, in bounds, free of NULs, each ended by one, one right after the other; the first is not empty. |
| `ProcArgs.ReadBackIff` | scripts/gates/darwin/argv_observation.h:5-25 | Arguments laid out by the kernel are read back if and only if the first is not empty. |
| `ProcArgs.ParsedIsLaidOut` | scripts/gates/darwin/argv_observation.h:5-25 | Whatever is accepted is laid out so, with a first argument that is not empty. |
| `ProcArgs.CountBytesAreSigned` | scripts/gates/darwin/argv_observation.h:6-10 | Every count is read back from its four bytes as a signed 32-bit integer. |
| `NodeFlags.FlagSplits` | scripts/gates/darwin/node_flags.h:39-44 | Splitting a flag at its first `=` gives a name and a value if and only if the flag is written so, for every well-formed name. |
| `NodeFlags.DefaultFlagValid` | scripts/gates/darwin/node_flags.h:45-59 | A flag is valid exactly when its name and value are those of the first rule of that name, with the two special flags as coded. |
| `NodeFlags.ReviewedIff` | scripts/gates/darwin/node_flags.h:39-58 | A flag is reviewed if and only if it is `--test-isolation=none` with a preloader pinned, a test name pattern that is listed, or else has just the value that the first rule of its name gives. |
| `NodeFlags.MisshapenRefused` | scripts/gates/darwin/node_flags.h:39-43 | A flag whose name has another shape is not reviewed. |
| `NodeFlags.GrammarIs` | scripts/gates/darwin/node_flags.h:60-72 | What the walk over the arguments takes for a flag, for a reviewed one and for the pinned module. |
| `NodeArgv.NodeFlagsEntry` | scripts/gates/darwin/node_flags.h:60-75 | The loop over the spans of a buffer finds the entry, and reports the name of the last flag looked at, as the recursive reading of their texts defines. |
| `NodeFlags.EntryIff` | scripts/gates/darwin/node_flags.h:60-75 | An entry is found if and only if it is in bounds, not a flag, and preceded only by reviewed flags and at most one import of the pinned preloader. |
| `NodeFlags.RefusedIsNamed` | scripts/gates/darwin/node_flags.h:60-75 | Without an entry, either nothing but such a prelude is there, or the name reported is that of the first flag that is not reviewed or is an import that is not allowed. |
| `NodeArgv.ObservedEntryIff` | scripts/gates/darwin/node_flags.h:60-75 | On any buffer an entry is found if and only if the arguments parse and it is the first of them after such a prelude; its span is then in bounds, not a flag, and ended by a NUL. |
| `NodeArgv.LaidOutEntry` | scripts/gates/darwin/node_flags.h:60-75 | For a process that the kernel lays out, it is the entry of its arguments. |
| `Pax.ReadRecords` | scripts/gates/darwin/guard.py:148-170 | The loop over a payload accepts and refuses as the specification of its records says. |
| `Pax.ValidateSeedHeaders` | scripts/gates/darwin/guard.py:121-178 | The loop over the stream position reports the entries, or refuses, as the walk says. |
| `PaxProofs.PayloadIff` | scripts/gates/darwin/guard.py:148-172 | An extended header gives a path if and only if its payload is one record `LEN path=VALUE\n` whose number counts the whole payload and whose value is a safe path. |
| `PaxProofs.PrintedIsRead` | scripts/gates/darwin/guard.py:148-172 | A record printed with a length that counts its own digits is read as its path, up to slashes at the end, whenever that is safe. |
| `PaxProofs.TwoLengths` | scripts/gates/darwin/guard.py:150-156 | The length is not determined by the path: 99 and 100 both count a record with a path of 90 characters. |
| `PaxProofs.LeadingZerosAreRead` | scripts/gates/darwin/guard.py:150-156 | A record whose number has any number of leading zeros is read, when it counts them. |
| `PaxChecks.SafeIff` | scripts/gates/darwin/guard.py:162-168 | A path is safe if and only if it does not start with a slash, no part of it is `..`, and its first part, less empty ones and single dots, is one of the three directories. |
| `PaxChecks.PathIff` | scripts/gates/darwin/guard.py:162-168 | The value of a record is accepted for a path if and only if it decodes, holds no zero byte, and the text less its slashes at the end is safe; each refusal has its own error. |
| `PaxChecks.NumberRefused` | scripts/gates/darwin/guard.py:150-158 | A record without a number, or whose number does not end it at a line feed, is refused with the error of that case. |
| `PaxChecks.FieldDecides` | scripts/gates/darwin/guard.py:159-168 | Otherwise its field decides: a second one, or another than `path=`, is refused, and else the path is accepted or refused. |
| `PaxChecks.HeaderRefusedIff` | scripts/gates/darwin/guard.py:148-172 | An extended header is refused with an error if and only if it is empty, or its first record is refused so, or a second one is. |
| `PaxProofs.LastBodyMayBeCut` | scripts/gates/darwin/guard.py:173-178 | A last member whose body is cut short anywhere is reported in full. |
| `PaxProofs.WalkIsAligned` | scripts/gates/darwin/guard.py:121-178 | Every header reported starts on a multiple of 512 inside the file, at least a block after the one before. |
| `PaxChecks.WalkIff` | scripts/gates/darwin/guard.py:121-178 | The walk reports a list of files if and only if the archive is that list: headers that follow each other block by block, each of a file under its own name or of a path for the next one, up to the end or a zero block. |
| `PaxChecks.RefusalIff` | scripts/gates/darwin/guard.py:121-178 | The walk refuses an archive with an error if and only if that is the first thing wrong with it: a header that does not decode, a member of another kind, a bad size, a bad or cut path header, or one at the end. |
| `PaxChecks.OnlyFiles` | scripts/gates/darwin/guard.py:131-142 | Every member reported is a regular file or a directory without payload. |
| `PaxProofs.ArchiveIsRead` | scripts/gates/darwin/guard.py:121-178 | Any archive of files and directories, with long paths in extended headers and ended by its end or a zero block, is read back by any codec that reads its headers: every item at its place with its path, kind and size. |
| `Ustar.FittingIsEncoded` | scripts/gates/darwin/guard.py:131-142 | With the name, size and type fields of a ustar header, every member that fits is read back from its header. |
| `Ustar.FittingArchiveIsRead` | scripts/gates/darwin/guard.py:121-178 | So every archive whose members fit their headers, with safe long paths, is read back. |
| `Ustar.ExampleIsRead` | scripts/gates/darwin/guard.py:121-178 | One such archive, of a file with a path of its own. |
| `ReaderBarrier.ReaderBarrier.DrainOnce` | scripts/gates/darwin/focused_reader_barrier.py:100-177 | One drain changes the fields as the specification says for whatever the world answers; a fault is remembered and raised. |
| `ReaderBarrier.ReaderBarrier.Finish` | scripts/gates/darwin/focused_reader_barrier.py:179-187 | The last drain succeeds exactly with evidence in order; else a failure is remembered. |
| `ReaderBarrierProofs.FreshRunIsSafe` | scripts/gates/darwin/focused_reader_barrier.py:64-177 | Over every run: what was delivered and what remains are the acknowledgement; nothing is delivered without authentication, request, complete proof and live reader; more than one connection is a failure. |
| `ReaderBarrierChecks.DrainIsLawful` | scripts/gates/darwin/focused_reader_barrier.py:100-177 | Every drain, of any barrier in any world, ends at one of thirteen checks in their order, and by that check fails with its own fault, or returns, and changes the fields as far as it got. |
| `ReaderBarrierChecks.RunSucceedsIff` | scripts/gates/darwin/focused_reader_barrier.py:100-187 | Over every run from the start: the evidence satisfies a row that needs it if and only if the conversation ran its course in time, from one peer, known, through a whole request and proven live readers in every drain that sent, to a whole acknowledgement and the end of the connection; evidence is in order exactly then or when no peer came. |
| `ReaderBarrierChecks.PlainRunSucceeds` | scripts/gates/darwin/focused_reader_barrier.py:100-187 | Such a run of two drains. |
| `ReaderProof.ProveReader` | scripts/gates/darwin/focused_reader_barrier.py:74-98 | The lookups and loops over readers, policies and retained births answer as the specification says, fault by fault. |
| `ReaderProofMeaning.ProofIff` | scripts/gates/darwin/focused_reader_barrier.py:74-98 | The proof gives a birth if and only if the profile is as recorded and there is exactly one reader, of that birth, below host, internal runner and root, observed with that profile, with at least one live policy and only expected ones, all four births retained. |
| `ReaderProofMeaning.FaultsOnSoundRoles` | scripts/gates/darwin/focused_reader_barrier.py:74-98 | On roles that observations lead to, a broken chain is reported only in instrumented mode, and a wrong number of readers never once the roles are complete. |
| `ReaderProofMeaning.ProvenLine` | scripts/gates/darwin/focused_reader_barrier.py:74-98 | Once the roles are complete, the processes proven are the one chain that there is. |
| `ReaderBarrierProofs.BytesNeedProof` | scripts/gates/darwin/focused_reader_barrier.py:100-173 | Bytes go out only in a drain that itself finds the path in order, the one reader of the requested fixture proven so and alive, and the deadline not over, on an authenticated connection. |
| `ReaderBarrierProofs.DeliveryWasSeen` | scripts/gates/darwin/focused_reader_barrier.py:100-173 | Over every run, if anything was delivered, one of the drains saw that reader. |
| `ReaderBarrierProofs.FailureSticks` | scripts/gates/darwin/focused_reader_barrier.py:174-177 | A failure is never forgotten, and connections, sent and approved never go back. |
| `ReaderBarrierProofs.OkMeansAcknowledged` | scripts/gates/darwin/focused_reader_barrier.py:16-24 | Evidence in order with a connection means exactly one connection and the whole acknowledgement delivered, and it satisfies what a row that needs it requires. |
| `Context.ContextTextSources` | v2/adapters/src/transcript-context.ts:79-99 | The sizes pushed while the text is cut are those of its pieces. |
| `ContextSources.SourcesAreExpected` | v2/adapters/src/transcript-context.ts:79-99 | What every text counts as, with category and label of each part: a loaded skill, a project block and what follows it, skills sections, instructions of system and developer, messages of anyone else. |
| `Context.PiecesPartition` | v2/adapters/src/transcript-context.ts:79-99 | The pieces hold every character of the text as often as it occurs there, for every role. |
| `Context.SourcesAddUp` | v2/adapters/src/transcript-context.ts:79-99 | The sizes add up to the length of the text. |
| `Context.AggregateSources` | v2/adapters/src/codex.ts:1148-1156 | The loop over the map groups sources by category and label in the order of their first appearance. |
| `Context.AggregationKeepsTotal` | v2/adapters/src/codex.ts:1148-1156 | Aggregation keeps the total and has one entry for each category and label. |
| `Context.AggregationSums` | v2/adapters/src/codex.ts:1148-1156 | Each entry is the sum of the sources with its category and label. |
| `Context.BaselineObservation` | v2/adapters/src/codex.ts:1168-1178 | The baseline of a turn is the length of all its text inputs; it is complete if and only if there is an input and every input is a text. |

## Left out

- The Claude and Kimi projectors, and the setup handshakes of all adapters: stateless per line, or calls of a projector that is modelled.
- `grokAllowPermissionResult`: picks one option by its kind.
- Parsing of log lines: JSON, field aliases, timestamps, and the printing of tool output are taken as given by the rows.
- Codex.CodexProjector.PushLine: the events of an item carry its merged fields, not the display payload made of them; the turns inside a fork snapshot and the details of a quota event are left out.
- Muse.MuseProjector.PushLine: the display payload of items (commands, files, summaries, labels) is left out of the events.
- The size limit and deep copy of checkpoint envelopes: the model checks the state validators only.
- JavaScript objects used as tables: names such as `constructor` found on the prototype are not modelled; tables are maps.
- Strings are sequences of characters: surrogate pairs, Unicode folding beyond ASCII and encodings are not modelled; bytes are characters.
- Args.ComposeRegroups: stated for grammars whose boolean flags do not spell a keyed identity `flag:key`; every shipped grammar is one.
- QuiescenceProofs.CompleteSeesEverything: the layout does not change during the walk.
- Reassembly.Reassembles: no process uses one sequence number for two messages, as the sender counts upwards.
- NodeFlags.DefaultFlagValid: the table of reviewed flags and patterns is a parameter; its shipped contents are not repeated.
- ReaderBarrierProofs.BytesNeedProof: the peer's identity, the path checks, the content of the profile file and whether a process is alive are answers of the world; the checks behind them are not part of this model.
- The printing of flags and the role check of a whole command line in `node_flags.h`, and `reader_argv_exact`.
- The verdict of `Trace.finish` over the records, and the policy handed to the preloader.
- Quiescence.RegionWalk: of its counters only the number of compared files and the image flag are stated; the details of a partial walk are left out.
- The scan over all processes in `quiescence`, and its file descriptor checks.
- Tap.Adjudicate: the errors are stated as a set, not in their order; diagnostics attached to rows are left out.
- The regular expressions that recognise TAP lines.
- Python's limit on the digits of an integer, which stops a pax length of more than 4300 digits in another way.
- The parsing of the reader barrier's request, and the sockets under it.
- TapProofs.CleanForest: for names that hold ` > ` it is false, as `TapAmbiguity.JointDeceives` shows.
- Ustar.FittingArchiveIsRead: the checksum and the other fields of a header are not modelled; `PaxProofs.ArchiveIsRead` holds for any codec.
- Signal delivery, process spawning, sandbox profiles, hashing and file copying in the gate scripts.
- The Linux gate records (`thread_records.py`, `stat_observation.py`, `policy.py`, `birth_identity.py`): bounded retries and first-sight records with few branches.
