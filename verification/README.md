# llamactl, modelled and proved

llamactl runs one llama.cpp server in a podman container. It keeps profiles in a
TOML file that people also edit by hand, starts and stops the container, watches
it through events and health probes, and estimates whether a model fits into VRAM
from the header of its GGUF file. This project models three parts of it in Dafny
4.11 and proves what they promise.

**The profile file and the store that mirrors it.** `ProfileFile` holds the line
editor on whole texts and a reader for the files it edits. A file is *well-formed*
when the reader accepts it: every line is blank, a comment, `[common]`,
`[profiles.<bare key>]`, or one bare key with a value on a single line, and no
table or key occurs twice. `TomlValue` is the printer and a parser for the part of
TOML v1.0.0 it writes (sections "Keys", "String", "Integer", "Boolean", "Array" and
"Inline Table"). `FileRefinement` and `SetRefinement` show that each edit of the
text is the intended edit of the tables it stands for; `ExactEdits` says for
exactly which tables and values that is so; `FileAlgebra` combines edits on the text
itself. `SplitRows`, `LooseSets` and `BrokenFiles` do the same for files whose values
hold the line breaks that only Python knows, and `FailingInputs` exhibits an input for
each way an edit can fail. `ConfigFile` is the editor as the program runs it, with its
loops. `Config` loads and renders profiles; `ProfileTables` says what each key of a
table becomes, and `ServerWords` reads the rendered words back, as the server does.
`KeptFiles` and `StoreSync` carry this to every run, in which the file loads to what
the manager holds; `StoreLoss` is the run in which it does not.

**The life of the instance.** `Tracker`, `Health`, `SuspendWatch` and `Manager`
are the program's classes, with methods that change fields. Each manager method is
proved equal to a step function of `Lifecycle` on one value, `Core`: configuration,
profiles, file, tracker status, expected-stop flag and container; `Operations` says
what each step leaves. `Machine` puts
those steps into runs, each operation as one step, and `RunSafety`, `LaunchRuns`,
`LaunchFidelity` and `Measurements` prove properties of all runs. `Flows` cuts the
operations into the steps between which other threads can act, shows that an
undisturbed flow is the operation, and `Interleaving` lets any number of threads
take those steps in any order; `InterleavedHonesty` says when what the tracker then
reports is true. Podman is the outside world: a call succeeds or
fails as it likes, a failed `run` and a successful `stop` leave nothing running,
nobody else starts a container of the managed name, and the container may die at
any moment.

**The GGUF header and the VRAM estimate.** `Gguf` is the reader as functions over
a position, `GgufReader` the cursor that the program moves, `GgufEncoding` an
encoder from the GGUF specification ("File Structure") and the proof that the
reader inverts it, `GgufWork` the bound on its loops. `Vram` is the estimate and the
fit check. Float arithmetic is modelled by an arbitrary function that rounds to a
nearest double.

Where the code and its documentation differ, the model follows the code:

- `remove_profile` says it swallows blank lines behind the block; that loop never
  runs, because a block ends at a header or at the end of the file
  (`FileRefinement.NothingSwallowed`).
- `_match_fields` says an exact interface match is preferred; the first matching
  word wins (`SuspendWatch.ParseLineExactly`).
- `stop` says the flag stays until the next start; an ending event clears it too.
- Nothing restricts profile names to bare keys; appending under any other name
  leaves a file that does not read back with that profile added
  (`ExactEdits.AppendExactly`).

Some things the program cannot promise are results here: a late `die` after a
reload marks the new container as crashed (`RunSafety.LateDieAfterReload`, with the
exact condition in `RunSafety.StepHonestExactly`), and so does an event in time whose
callback a stop and a start overtake (`InterleavedHonesty.OvertakenCallbackMisleads`,
`ActHonestExactly`). A probe under way can turn a recorded crash into ready
(`Interleaving.PollCanHideCrash`, `CrashIsHiddenExactly`). A value with a Unicode line
separator is created as it should be, and the next edit of any other profile loses the
whole file (`StoreLoss.CreateThenEditLosesFile`; exactly when, in `KeptFiles`). A key
written with a tab before its sign is set a second time instead of replaced
(`FailingInputs.TabBeforeSign`, `ExactEdits.SetExactly`).

## Model

| member | source | states |
|---|---|---|
| TomlRoundTrip.RoundTripExactly | src/llamactl/config.py:435-457 | a value read back from its printed text is the same value if and only if it is clean: booleans, integers, control-free strings, lists of such strings, and nested dicts with distinct bare keys |
| TomlRoundTrip.PrinterInjective | src/llamactl/config.py:441-457 | different clean values are printed differently |
| ExactEdits.TableRoundTrip | src/llamactl/config.py:460-472 | a printed block reads back as exactly that profile if and only if its name is a bare key and its keys and values are clean |
| ExactEdits.TablePrinterInjective | src/llamactl/config.py:460-472 | up to the order of keys, different clean tables are printed differently |
| FileEdits.WrittenInOrder | src/llamactl/config.py:460-472 | known keys are written first, in the canonical order, then the others in their own |
| FileAlgebra.SpanIs | src/llamactl/config.py:475-497 | the first line equal to the header and the next header-like line delimit the block that is found |
| ConfigFile.FindBlockSpan | src/llamactl/config.py:475-497 | the two scanning loops find the span of the specification |
| FileRefinement.AppendShape | src/llamactl/config.py:500-514 | for every table that can be printed: every line of the old text is kept in order, up to empty lines at its end; one empty line and the block follow |
| FileRefinement.AppendRefines | src/llamactl/config.py:500-514 | on a well-formed file appending a writable table adds exactly that profile if and only if the name is bare, keeps the file well-formed, and refuses a name that is present |
| ExactEdits.AppendExactly | src/llamactl/config.py:500-514 | for every table: refused exactly when it cannot be printed; otherwise exactly that profile is added if and only if the name is bare and the table clean |
| ExactEdits.OverwriteLines | src/llamactl/config.py:517-531 | for every text and every table that can be printed: every line outside the span is kept in place, and the span becomes the printed block, split into lines |
| FileRefinement.OverwriteRefines | src/llamactl/config.py:517-531 | on a well-formed file overwriting with a writable table replaces exactly that profile, keeps the file well-formed, and reports a missing one |
| ExactEdits.OverwriteExactly | src/llamactl/config.py:517-531 | for every table: refused exactly when it cannot be printed; otherwise exactly that profile is replaced if and only if keys are bare and values clean and free of the characters `splitlines` breaks at |
| ExactEdits.OverwriteClean | src/llamactl/config.py:528-531 | a clean value that holds such a character leaves a file that cannot be read at all |
| SetRefinement.SetLineParts | src/llamactl/config.py:548-560 | of the block's lines one that defines the key is replaced, or the pair is put in with only blank lines behind it; all else is kept |
| ExactEdits.SetExactly | src/llamactl/config.py:534-560 | for every key and value: refused exactly when the value cannot be printed; otherwise exactly that key of that profile is changed if and only if the key is bare, the value clean, and no line of the block defines the key unseen by the editor |
| SetRefinement.SetRefines | src/llamactl/lifecycle.py:187-190 | a set as the program makes them, of a bare key to a writable value, keeps the file well-formed and changes one key, or leaves an unreadable file when the block defines the key unseen; a missing profile is reported |
| FileRefinement.RemoveShape | src/llamactl/config.py:563-580 | every line outside the span is kept, up to empty lines at the end |
| FileRefinement.RemoveRefines | src/llamactl/config.py:563-580 | on a well-formed file removing drops exactly that profile, keeps the file well-formed, and reports a missing one |
| FileAlgebra.AppendThenRemove | src/llamactl/config.py:500-580 | removing what was appended gives back the text up to newlines at its end, or nothing if it was blank |
| FileAlgebra.OverwriteTwice | src/llamactl/config.py:517-531 | overwriting twice is overwriting with the second table |
| FileAlgebra.SetTwice | src/llamactl/config.py:534-560 | setting a key twice is setting it to the last value |
| SplitRows.OverwriteLooseExactly | src/llamactl/config.py:524-531 | on a file whose values hold characters that `splitlines` breaks at, overwriting is right if and only if the table is writable, every such break lies inside the block, and no piece it makes there looks like a header |
| SplitRows.RemoveLooseExactly | src/llamactl/config.py:569-580 | on such a file removing is right if and only if every break lies inside the block and no piece there looks like a header |
| LooseSets.SetLooseExactly | src/llamactl/config.py:534-560 | on such a file, for every key and value: refused exactly when the value cannot be printed; otherwise setting is right if and only if the key is bare, the value clean, no line of the block defines the key unseen, and every break lies in the row that is replaced and cuts off only blanks and comments |
| BrokenFiles.AppendLoose | src/llamactl/config.py:506-514 | on such a file appending a clean table still adds exactly that profile, unless a piece of a value looks like its header, when it is refused |
| BrokenFiles.AppendThenSetLoses | src/llamactl/config.py:500-560 | a clean table with such a break is appended and reads back exactly, and the next set on any other profile leaves a file that cannot be read |
| BrokenFiles.AppendThenOverwriteLoses | src/llamactl/config.py:500-531 | the same of the next overwrite of any other profile, with whatever table |
| BrokenFiles.AppendThenRemoveLoses | src/llamactl/config.py:500-580 | the same of the next removal of any other profile |
| FailingInputs.TabBeforeSign | src/llamactl/config.py:550-553 | a readable file with a tab before the sign, on which every set of that key leaves an unreadable file |
| FailingInputs.SeparatorInValue | src/llamactl/config.py:435-438 | a complete profile that is accepted, reads back as written, and is not writable: its model holds U+2028 |
| FailingInputs.SeparatorLosesFile | src/llamactl/config.py:500-531 | that profile is appended to every well-formed file as it should be, and overwriting with it leaves every such file unreadable |
| FailingInputs.OddNameLosesFile | src/llamactl/config.py:467-514 | appending under any name of one line that is no bare key leaves a file that cannot be read |
| FailingInputs.BlankInName | src/llamactl/config.py:467-514 | the name `a b` is such a name |
| ConfigFile.File.Append | src/llamactl/config.py:500-514 | the method leaves the text of the specification's append, or the old text and its error |
| ConfigFile.File.Overwrite | src/llamactl/config.py:517-531 | the method leaves the text of the specification's overwrite, or the old text and its error |
| ConfigFile.File.SetValue | src/llamactl/config.py:534-560 | the method leaves the text of the specification's set, or the old text and its error |
| ConfigFile.File.Remove | src/llamactl/config.py:563-580 | the method leaves the text of the specification's remove, or the old text and its error |
| Config.SlotCtxSize | src/llamactl/config.py:97-108 | a slot size exists exactly when a positive number of slots divides the context, and slots times size is the context |
| Config.ResolveTuning | src/llamactl/config.py:136-152 | every tuning field has the profile's value, else the common one, and no other field is set |
| Config.RenderTuningArgs | src/llamactl/config.py:155-173 | the flags of the specification table, in its order, each from the value in effect |
| Config.RenderingIgnoresMeasurements | src/llamactl/config.py:176-235 | measured values never change a rendered command line |
| ProfileTables.LoadsExactly | src/llamactl/config.py:363-397 | exactly which tables load as a profile, and then every field of it from its own key: the three sizes, both cache types, the model, the image or the default, each tuning field, both measured fields, labels and extra arguments |
| ProfileTables.AcceptedExactly | src/llamactl/config.py:400-411 | a table is accepted from a client if and only if it loads and its `parallel`, at least one, divides its `ctx_size` |
| ProfileTables.CommonExactly | src/llamactl/config.py:341-349 | the same of the common section, field by field |
| ProfileTables.IntTextBack | src/llamactl/config.py:374-388 | a size given as the text of a number is that number |
| ServerWords.LaunchCommands | src/llamactl/config.py:176-206 | from any launch the server reads the model, context, slots, batch size, both cache types, host and port each behind its own flag, every tuning field in effect (the profile's, else the common one) behind the flag of its name and no other option; then come the common and the profile's extra arguments in order |
| ServerWords.TableReachesServer | src/llamactl/config.py:176-397 | what a client writes in a table is what the server is told: sizes as numbers, names as they stand |
| ServerWords.LaunchFlags | src/llamactl/config.py:209-235 | podman reads from a launch the container's name, the devices and their group, one port for host and server, the models, and the label, and no other flag |
| KeptFiles.OverwriteKeptExactly | src/llamactl/config.py:517-531 | on every file the store can reach, overwriting is right if and only if the table is writable and no break outside the block would be cut |
| KeptFiles.SetKeptExactly | src/llamactl/config.py:534-560 | on every file the store can reach, setting a key is right if and only if the key is bare, the value clean, and no break would be cut but in the row that is replaced, with nothing said behind it |
| KeptFiles.RemoveKeptExactly | src/llamactl/config.py:563-580 | on every file the store can reach, removing is right if and only if no break outside the block would be cut |
| StoreSync.StoreStaysInStep | src/llamactl/lifecycle.py:109-193 | after any run in which accepted creates are clean under bare names and no other write meets a break that it does not replace, refused calls and failed writes included, the file loads to the manager's profiles, except that a profile whose last peak was not written may differ in its measured fields |
| StoreSync.PlainRunsStayInStep | src/llamactl/lifecycle.py:109-193 | when accepted tables are writable, every run keeps the file well-formed and in step, with no condition on the file between |
| StoreSync.RestartLoadsMemory | src/llamactl/lifecycle.py:109-193 | when in such a run no peak write failed, a restarted server loads exactly the common section and the profiles in memory |
| StoreLoss.CreateThenEditLosesFile | src/llamactl/lifecycle.py:109-193 | one accepted create of a clean table that is not writable leaves memory and file in step, and then any peak written for another profile, and any accepted update or delete of one, leaves a file that a restarted server cannot load |
| StoreSync.SlotsAlwaysDivide | src/llamactl/config.py:400-411 | over every run no call brings in a profile whose slots do not divide its context |
| StartingFile.StoreCanStart | src/llamactl/config.py:321-350 | for every writable table that loads as a common section, tuning fields and extra arguments included, there is a well-formed file that loads to it |
| Measurements.PeakIsMaximum | src/llamactl/lifecycle.py:162-193 | over every run a measured peak is the maximum of its value at the last create or update (absent is zero) and all readings since, and nothing else of the profile changes |
| Measurements.RecordingKeepsRendering | src/llamactl/lifecycle.py:162-193 | over every run a profile is launched with the words of its last create or update |
| Manager.LifecycleManager.CreateProfile | src/llamactl/lifecycle.py:109-124 | whole new state and reply of the step function |
| Manager.LifecycleManager.UpdateProfile | src/llamactl/lifecycle.py:126-144 | whole new state and reply of the step function |
| Manager.LifecycleManager.DeleteProfile | src/llamactl/lifecycle.py:146-160 | whole new state and reply of the step function |
| Manager.LifecycleManager.RecordVramPeak | src/llamactl/lifecycle.py:162-193 | whole new state and reply of the step function, the second write only after the first |
| Manager.LifecycleManager.Start | src/llamactl/lifecycle.py:195-254 | whole new state and reply of the step function, for a run that succeeds, fails or raises |
| Manager.LifecycleManager.Stop | src/llamactl/lifecycle.py:256-286 | whole new state and reply of the step function; a stop that raises leaves the flag set |
| Manager.LifecycleManager.Reload | src/llamactl/lifecycle.py:365-380 | whole new state and reply of the step function; an unknown profile stops nothing |
| Manager.LifecycleManager.Reconcile | src/llamactl/lifecycle.py:288-331 | whole new state and reply of the step function |
| Manager.LifecycleManager.ProfileFromContainer | src/llamactl/lifecycle.py:333-363 | labels first, then the first word of the command that names a configured profile |
| Manager.LifecycleManager.HandleContainerEvent | src/llamactl/lifecycle.py:383-438 | whole new state of the step function |
| Operations.StartSays | src/llamactl/lifecycle.py:195-254 | exactly when a start is refused and with which error, and otherwise the whole status, flag and container for a run that succeeds, fails or raises |
| Operations.StopSays | src/llamactl/lifecycle.py:256-286 | what an idle stop, a stop and a failed stop leave: everything but the message cleared, the flag raised, the container as podman left it |
| Operations.ReloadSays | src/llamactl/lifecycle.py:365-380 | a reload succeeds exactly when stop and run do, with the new container loading; a failed one leaves the stop's work, an unknown profile nothing |
| Operations.ReconcileSays | src/llamactl/lifecycle.py:307-357 | what is running is adopted with the profile of its label, or else the first one that its command names, what has ended is stopped with its exit code, and what is absent is stopped |
| Operations.EventSays | src/llamactl/lifecycle.py:383-438 | which events are ignored, which clear an expected stop, and which are crashes with their code and log |
| Operations.EditsSay | src/llamactl/lifecycle.py:109-160 | exactly which creates, updates and deletes are refused before the file is touched, those of the active profile among them |
| Operations.RecordSays | src/llamactl/lifecycle.py:162-193 | the answer is the peak then known, or none when nothing was read or the profile is unknown |
| Manager.LabelledArgs | src/llamactl/lifecycle.py:228-238 | the rendered words with the label spliced in at the first occurrence of the image |
| LaunchFidelity.LabelBeforeImage | src/llamactl/lifecycle.py:228-238 | the label stands directly before the image with all other words in order if and only if no earlier word equals the image |
| LaunchFidelity.LaunchParses | src/llamactl/lifecycle.py:229-238 | podman reads from a launch exactly one label, the profile's image and the server's arguments if and only if the image is no word of the fixed flags and does not begin with a dash, whatever the names, ports and paths |
| LaunchFidelity.LabelReadExactly | src/llamactl/lifecycle.py:229-238 | podman reads the profile's name from the label if and only if that holds, or the image is itself an option with a value and the container is not named like it |
| LaunchFidelity.ReconcileRecovers | src/llamactl/lifecycle.py:307-357 | a manager that finds such a launch running adopts it as loading under exactly the profile that launched it |
| LaunchRuns.LaunchedProfileIsKept | src/llamactl/lifecycle.py:126-193 | in every run without late events and with readable labels, while the launched container runs or the tracker says loading, ready or degraded, its profile is configured, active, and rendering it again gives the very words of the launch |
| RunSafety.StepHonestExactly | src/llamactl/lifecycle.py:209-438 | a step makes the tracker say stopped or crashed over a running container if and only if it is an ending event that comes late and is acted on |
| RunSafety.HonestAfterReconcile | src/llamactl/lifecycle.py:288-331 | with each operation as one step: from the first successful reconcile on, no run without late events reports a running container as stopped or crashed |
| RunSafety.LateDieAfterReload | src/llamactl/lifecycle.py:365-438 | after any successful reload the old container's ending, delivered late, is reported as a crash of the running one |
| RunSafety.StopNeverCrashes | src/llamactl/lifecycle.py:273-286 | from a successful stop to the next start or reload no events, polls, suspends, resumes or reconciles lead to crashed or to a running container |
| RunSafety.EndingIsCrash | src/llamactl/lifecycle.py:383-438 | with no stop or reload since a successful start, an ending in any state but stopped and suspended yields crashed with the event's code or else podman's, the log, and the profile kept |
| RunSafety.CrashStaysExactly | src/llamactl/lifecycle.py:383-438 | polls, endings, deaths and edits of profiles never leave crashed if and only if no stop has left its flag over the crash |
| RunSafety.StreakOverRun | src/llamactl/health.py:107-134 | over every run the counter is the number of failed probes since the last success or demotion, and every demotion ends a row of at least the threshold of failures |
| RunSafety.ReadyIsAnswered | src/llamactl/health.py:107-134 | over every run of any operations, events and missed probes, nothing but an answered probe makes the instance ready |
| RunSafety.WakeReconciles | src/llamactl/suspend_watch.py:232-254 | a resume behind a suspend reconciles the suspended instance, and one without a suspend does nothing |
| Health.PollKeepsStreak | src/llamactl/health.py:115-134 | a poll demotes exactly when a failed probe of a loading or ready server completes the threshold |
| Health.PollSays | src/llamactl/health.py:107-134 | an answered probe leaves a probed instance ready with its other fields kept; a missed one leaves the whole status alone unless it demotes; any other instance is not touched |
| Health.HealthPoller.PollOnce | src/llamactl/health.py:107-134 | counter and tracker after a poll, and its answer |
| Tracker.InstanceTracker.Transition | src/llamactl/state.py:66-88 | the whole new status: fields given are set, a stop clears four of them, `since` moves only with the state |
| Tracker.MoveSays | src/llamactl/state.py:66-88 | a stop clears profile, container, exit code and log whatever is given, and keeps the message; any other move sets what is given and keeps the rest |
| Tracker.SinceIsLastChange | src/llamactl/state.py:66-88 | over every sequence of transitions `since` is the time of the last one that changed the state |
| SuspendWatch.ParseLineExactly | src/llamactl/suspend_watch.py:57-168 | a line is a sleep signal exactly when the three words stand behind `signal` and a path, or at the first interface word |
| SuspendWatch.WordsBack | src/llamactl/suspend_watch.py:72 | splitting a line gives back its words, however they are spaced |
| SuspendWatch.FindInterface | src/llamactl/suspend_watch.py:81-93 | the search stops at the first interface word |
| SuspendWatch.PowerStateWatcher.HandleSuspendStart | src/llamactl/suspend_watch.py:232-236 | the state is remembered and the tracker suspended |
| SuspendWatch.PowerStateWatcher.HandleResume | src/llamactl/suspend_watch.py:238-254 | the callback is due exactly when a suspend is remembered, which is then forgotten |
| SuspendWatch.PowerStateWatcher.Watch | src/llamactl/suspend_watch.py:232-254 | over every stream of lines the callback is called exactly once for each resume signal whose preceding signal is a suspend |
| Flows.SoloStart | src/llamactl/lifecycle.py:209-254 | a start whose steps nobody interrupts has the effect and reply of the one-step start |
| Flows.SoloReload | src/llamactl/lifecycle.py:365-380 | the same of a reload |
| Flows.SoloReconcile | src/llamactl/lifecycle.py:307-331 | the same of a reconcile |
| Flows.SoloEvent | src/llamactl/lifecycle.py:383-438 | the same of the event callback |
| Flows.SoloEdit | src/llamactl/lifecycle.py:109-193 | every create, update, delete and recording is the edit step of the interleavings, with the profiles, the file and the reply it leaves |
| Interleaving.AloneIsSolo | src/llamactl/lifecycle.py:206-207 | among any other threads, one that alone takes its remaining steps does what its flow does |
| Interleaving.RunOnlyWhenGone | src/llamactl/lifecycle.py:219-240 | in every interleaving `podman run` is issued only while no managed container runs |
| Interleaving.MutualExclusion | src/llamactl/lifecycle.py:84-380 | in every interleaving at most one thread is inside a locked flow, the holder of the lock |
| Interleaving.ContainersAreConserved | src/llamactl/lifecycle.py:195-286 | at any time every container that was ever launched has ended, but for the running one |
| Interleaving.PollCanHideCrash | src/llamactl/health.py:115-132 | from any quiet server that should be answering there is an interleaving through crashed that ends in ready with the container gone |
| Interleaving.CrashIsHiddenExactly | src/llamactl/health.py:115-132 | polls can make a crashed instance leave crashed if and only if a probe was under way |
| InterleavedHonesty.ActHonestExactly | src/llamactl/lifecycle.py:209-438 | in every interleaving a step makes the tracker say stopped or crashed over a running container, no start being in flight, if and only if it is the last write of an event callback that a launch has overtaken |
| InterleavedHonesty.PromptRunsAreHonest | src/llamactl/lifecycle.py:209-438 | when ending events are delivered while nothing runs and no launch overtakes their callbacks, no reachable state without a start in flight reports a running container as stopped or crashed |
| InterleavedHonesty.OvertakenCallbackMisleads | src/llamactl/lifecycle.py:413-438 | from any quiet server with a running container there is an interleaving in which an event delivered in time reports the next container as crashed while it runs |
| Gguf.FloorDiv | src/llamactl/gguf.py:227-228 | Python's floor division, for either sign of the divisor |
| GgufReader.Cursor.Read | src/llamactl/gguf.py:113-122 | the value and the new position of the specification, or a failure |
| GgufReader.Cursor.ReadString | src/llamactl/gguf.py:124-128 | the same of a string, cut short at the end of the buffer |
| GgufReader.Cursor.SkipArray | src/llamactl/gguf.py:153-162 | the same of an array, with its loop over strings |
| GgufReader.Cursor.SkipValue | src/llamactl/gguf.py:130-139 | the same of a skipped value |
| GgufReader.Cursor.ReadScalarValue | src/llamactl/gguf.py:141-151 | the same of a value that is kept |
| GgufReader.ReadInfo | src/llamactl/gguf.py:177-243 | the loop over the entries answers as the specification does |
| GgufEncoding.WantedKeysName | src/llamactl/gguf.py:166-174 | for every architecture, even an odd one, a key is wanted for a field exactly when it is the architecture followed by the field's suffix |
| GgufEncoding.SkipAgreesWithRead | src/llamactl/gguf.py:130-162 | whenever reading a value succeeds, skipping it ends at the same position; only a scalar beyond the buffer can be skipped and not read |
| GgufEncoding.ParseInvertsEncode | src/llamactl/gguf.py:197-243 | for every list of entries the encoded bytes parse to the entries' own description (last value wins, architecture keys only after the architecture, head dimension from the embedding if absent), and the scan ends where the entries end |
| GgufEncoding.AnswerSays | src/llamactl/gguf.py:225-243 | the answer, field by field: each number is the integer that the last entry for that very field holds, the name its text, the quantisation the label of its file type, the head dimension the key length or else the floor of embedding by heads, or absent |
| GgufEncoding.TextIsClipped | src/llamactl/gguf.py:124-128 | a string claimed to be longer than the buffer is read as far as there are bytes, and the cursor moves by the claim |
| GgufEncoding.OnlyGguf | src/llamactl/gguf.py:197-202 | nothing is answered for a file that does not begin with the magic bytes and a whole header |
| GgufWork.WorkBound | src/llamactl/gguf.py:203-221 | whatever the header claims, n entries that are scanned cost at least 13 bytes each of the file |
| GgufWork.TextsDoneBound | src/llamactl/gguf.py:153-160 | whatever count an array claims, the strings that are skipped cost at least 8 bytes each of the buffer |
| GgufWork.TotalWorkBound | src/llamactl/gguf.py:153-221 | over a whole parse, entries and skipped strings together cost at least 8 bytes each of the file behind its header, whether it succeeds or fails |
| Vram.KvCacheExact | src/llamactl/gguf.py:263-285 | below 2^53 no rounding shows: the cache estimate is the exact quotient by 32, its fraction dropped |
| Vram.EstimateBoundsHybrids | src/llamactl/gguf.py:263-285 | the estimate bounds every cache that keeps some of the layers, or shorter contexts in them |
| Vram.EstimateOfSlots | src/llamactl/gguf.py:263-285 | the estimate of a context exceeds the sum over its equal slots by less than one byte a slot |
| Vram.EstimateVerdictAntitone | src/llamactl/api.py:155-193 | the estimate-based verdict only gets worse as the context grows, at any size and under any rounding to nearest; a negative geometry turns it around |
| Vram.VerdictSays | src/llamactl/api.py:165-176 | it fits, or not, exactly when requirement and total are known and compare so; the measured peak wins over the estimate, basis says which it was, and requirement and headroom make the total |
| Vram.FitsExactly | src/llamactl/gguf.py:263-286 | below 2^53 a profile is said to fit if and only if file, cache (layers times heads times head dimension times context at both types' costs) and three quarters of a GiB fit |
| Vram.UnknownCacheIsFree | src/llamactl/gguf.py:278-286 | a geometry or cache type that is not known leaves the cache out |
| Vram.CostsAreBlocks | src/llamactl/gguf.py:40-51 | each cache type costs its bits and its 16-bit scales for a block of 32 elements |

## Left out

- Events, subprocesses and threads (`events.py`, `podman.py`, and starting, joining and restarting in `health.py` and `suspend_watch.py`): operating-system behaviour. Podman is replaced by the world described above.
- `api.py` but for the fit check, `cli.py`, `metrics.py`, `power.py` and the shell scripts: I/O, wrappers or easy parsing.
- The wiring of the resume callback to `reconcile` is taken from the documentation in `suspend_watch.py`; no code in the repository makes the connection.
- File system: a read always succeeds, and a write succeeds or leaves the old text. Encoding errors are not modelled.
- Time: timestamps are values handed in, not a clock.
- TOML: the reader knows the subset that is printed, with comments and blanks. Other escapes, quoted and dotted keys, sub-tables, multi-line values, floats, dates and trailing commas make a file not well-formed. `tomllib` accepts more.
- Config.LoadProfile: refuses lists and dicts in fields that hold text, where the program keeps or stringifies them; `int()` of text knows ASCII digits only.
- SuspendWatch.MatchFields: leaves out the sender of a line, which nothing reads.
- Config.LoadCommon: demands text for image, models directory and container name, which the program does not check.
- StoreSync.StoreStaysInStep: the first file is assumed to have no key with a tab before its sign, and created names to be bare and tables clean, without which a set or an append fails (`ExactEdits.SetExactly`, `ExactEdits.AppendExactly`). Updates, deletes and recorded peaks are assumed right exactly when they are (`KeptFiles`), and recorded times to be clean and free of such breaks, as the program's own are.
- LaunchRuns.LaunchedProfileIsKept: started profiles are assumed to have an image with which podman reads the label back (`LaunchFidelity.LabelReadExactly`); otherwise a later reconcile may adopt the container without its profile.
- InterleavedHonesty.ActHonestExactly: the first reconcile is not spelled out; the runs begin in any quiet state whose report is true.
- Lifecycle.Inspect: podman's own argument parsing is modelled as far as the flags that are rendered; the message about an orphan is shortened.
- Interleaving.RunOnlyWhenGone: creates, updates, deletes and recordings are one step each, since they do not touch the container; that step may leave any profiles and any file (`Flows.SoloEdit`).
- GGUF text is kept as bytes and float payloads as bits: decoding with replacement is not modelled, under which keys that differ only in invalid bytes are the same. Nested arrays are rejected by the program and so are not encoded.
- GgufReader.Cursor.SkipArray: positions are unbounded integers; Python's own limit on slice bounds is outside the model.
- Vram.KvCacheExact: doubles have unbounded exponents, so overflow to infinity is not modelled.
- The rounded GiB figures of the estimate: for display only.
