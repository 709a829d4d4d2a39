# A verified model of the application profiler's agent

The agent turns one profiling request into a series of iterations, and each iteration profiles many
PIDs at once. Its own rule is that a run that ends without a result must not report success. This
project models the parts of the agent that have to hold up for that rule, and proves what they keep:

- **the run engine**: `Run` over `ProfilePIDs` over the per-PID pipelines of perf, bpf, pprof and
  austin. The tasks of one iteration are interleaved step by step over one file system and one event
  log. `ResultNames`, `Pipelines`, `Isolation`, `Interleaving`, `Publication`, `Verdicts`, `Rounds`,
  `Pacing` and `Agent` lead up to the class `AgentEngine.Agent`; `EndToEnd` compares the step machine
  with a plain description of what each tool delivers, or why it fails, `Deliveries` does so for whole iterations,
  `Artefacts` and `AustinProfile` say what the artefacts are made of, and `PprofErrors` what a failed pprof task
  reports;
- **the JFR stop protocol** (`JfrStop`, `JfrLimits`): pollers, a shared channel of stop tokens, a cleaner
  that sends and closes, and the invocations waiting for their pollers, in any interleaving;
- **austin's target files** (`AustinTargets`, `AustinMounts`, `AustinSharing`): reading the memory map, printing
  the argument list, the shell loop that reads it back while it copies and binds, and several of these at once;
- **the process tree** (`ProcessTree`): finding the leaves through newline-separated text, and the filter;
- **samples** (`BpfSamples`, `Legend`): counting, printing folded lines, and rewriting them;
- **chunked publication** (`Chunks`) and **the agent process** (`Lifecycle`).

`Text` holds the string functions these share, with lemmas that say what they mean.

Code that changes state is modelled by classes and loops whose contracts tie them to functions; the
promises are lemmas about those functions. Concurrency is modelled by runs of atomic steps: a theorem
about a run holds for every order in which the steps can come.

Some things the code does not promise, each with the exact condition:

- After a clean-up of JFR recordings invocations need not return. A poller that takes its own stop token leaves
  without telling the invocation that waits for it, and a poller that finds the channel closed looks at it for
  ever. Every session of JFR recordings with at least one PID has such a run (`JfrLimits.HangingInvocations`), and
  after the close an invocation can still return exactly if its poller is in neither case
  (`JfrLimits.ReturnsUnlessCaught`).
- Pollers need not stop either: a token can be taken by another PID's poller. That can happen exactly in sessions
  of two PIDs or more (`JfrLimits.StolenTokens`).
- Samples are not conserved where command or symbol names hold newlines; `BpfSamples.SamplesConserved` says by how
  much. Labelling does not keep the total where a carriage return hides a count (`Legend.LegendConservesTotal`).
- A SIGTERM handled before the profiler is set makes the process exit in mid-profiling without any clean-up
  (`Lifecycle.EarlySignalSkipsCleanUp`); otherwise, if there is a profiler, a clean-up of the exit's own route has
  always returned before the process exits (`Lifecycle.ExitIsCleanedUp`).

`dafny verify dfyconfig.toml` checks everything.

## Model

| member | source | states |
|---|---|---|
| ResultNames.KeyOfResultFile | internal/agent/profiler/common/common.go:20-98 | The PID and the iteration can be read back from a result file's name and from any name made by appending to it, even when the output type contains dashes |
| ResultNames.ResultFileInjective | internal/agent/profiler/common/common.go:20-98 | For one tool and directory a name determines output type, PID, iteration and what was appended; so a derived name is never a result name nor another key's derived name |
| Isolation.AllNamesOwned | internal/agent/profiler/perf.go:24-30 | Every file a pipeline reads, writes or publishes, perf's own data and script files included, carries the PID and iteration of its task |
| Isolation.StepReads | internal/agent/profiler/perf.go:85-173 | A step does the same in any two file systems that agree on the task's own files |
| Isolation.StepWrites | internal/agent/profiler/perf.go:85-173 | A step writes and deletes its own files only |
| Isolation.StepKeepsTask | internal/agent/profiler/go_pprof.go:74-85 | A pprof task works on a job that is the shared one but for its own PID from its first step on; the other tools' tasks see the shared job unchanged |
| Isolation.StepIsLocal | internal/agent/profiler/bpf.go:85-114 | Non-interference: what a step does, announces and writes depends on and touches only files of its own PID and iteration |
| Interleaving.RunKeepsLedger | internal/agent/profiler/common/pids.go:32-41 | In every state of every schedule, each task's final files, outcome and results are already those of running it alone on its own files |
| Interleaving.ScheduleIndependence | internal/agent/profiler/common/pids.go:32-41 | Any two complete interleavings end with the same files, the same per-PID outcomes and the same events up to order |
| Interleaving.SameAsOneByOne | internal/agent/profiler/common/pids.go:32-41 | Running the PIDs one after another is a schedule, and every complete interleaving ends with its files, outcomes and events up to order |
| Publication.RunKeepsBooks | internal/agent/util/publish/publisher.go:37-80 | At every point of every schedule, each task has announced one result if it ended well and none otherwise, and every announced size and checksum is true of the file |
| Publication.InvokePublishes | internal/agent/util/publish/publisher.go:37-80 | One Invoke adds results only, one per PID that succeeded, of its own iteration; everything announced earlier stays true |
| Verdicts.Judge | internal/agent/profiler/common/pids.go:42-62 | The loop over the error slots returns the verdict and the notice that VerdictMeaning and NoticeMeaning characterise |
| Verdicts.FailuresInOrder | internal/agent/profiler/common/pids.go:43-48 | The reported failures are exactly the PIDs whose slot holds an error, at increasing positions of the input, each with its own slot's error |
| Verdicts.FailuresComplete | internal/agent/profiler/common/pids.go:43-48 | No failing PID is left out of the report |
| Verdicts.VerdictMeaning | internal/agent/profiler/common/pids.go:25-62 | Success exactly if some PID succeeded; no-PIDs error exactly for the empty list; otherwise every PID's reason in input order; a notice exactly if some but not all failed |
| Verdicts.NoticeMeaning | internal/agent/profiler/common/pids.go:43-62 | There is never more than one notice; its total is the number of PIDs, its count the number of slots without an error, and it lists exactly the other PIDs in input order, each with its own error |
| Verdicts.Error | internal/agent/profiler/common/pids.go:73-79 | The message is, for each PID in order, "PID ", the PID, ": " and its reason, separated by "; " |
| Verdicts.Unwrap | internal/agent/profiler/common/pids.go:81-87 | The causes are exactly the per-PID errors, in order |
| Rounds.InvokeIsDeterminate | internal/agent/profiler/common/pids.go:25-62 | Verdict, notices and files of an Invoke do not depend on how its tasks are interleaved |
| Rounds.RoundOfInvoke | internal/agent/profiler/common/pids.go:25-62 | An Invoke, for any schedule, adds exactly one result for each PID whose task returned nil, under that PID's name, and the notice that follows from the per-PID errors |
| Rounds.RoundVerdict | internal/agent/profiler/common/pids.go:25-62 | An Invoke succeeds exactly if it published a result; one that fails leaves nothing in the log |
| Deliveries.DeliveredRound | internal/agent/profiler/common/pids.go:25-62 | Over a file system without files of this iteration, an Invoke's outcomes, with the reason of each failure, and its announced results are, PID by PID, those of the references, whatever the schedule; it leaves no file of a later iteration |
| Deliveries.NoticeAsProduced | internal/agent/profiler/common/pids.go:56-62 | The notice of such an iteration lists exactly the PIDs whose reference breaks, in input order, each with the reason the reference gives, and counts the others |
| Pacing.IterationsFill | internal/agent/action/profile/profile.go:65-67 | There is at least one iteration, and as many as whole intervals fit into the duration |
| Pacing.PauseFills | internal/agent/action/profile/profile.go:74-76 | The sleep is never negative, and truncating to milliseconds makes an iteration less than one millisecond too long |
| Pacing.StartsApart | internal/agent/action/profile/profile.go:66-77 | Iterations start at least an interval apart, also when one overruns |
| Pacing.Drift | internal/agent/action/profile/profile.go:66-77 | Without overruns the time after k iterations, less what the sleeps overslept, is at least k intervals and less than k milliseconds more |
| AgentEngine.StaggeredStart | internal/agent/profiler/common/pids.go:34-39 | Task i starts no earlier than i delays after the first |
| AgentEngine.Agent.StepOne | internal/agent/profiler/common/pids.go:40 | A step of one task changes the shared files and log as specified, and fills no slot but its own |
| AgentEngine.Agent.Play | internal/agent/profiler/common/pids.go:32-41 | Starting staggered tasks and letting them move follows some schedule of the specification |
| AgentEngine.Agent.Wait | internal/agent/profiler/common/pids.go:42 | The join returns with every task finished |
| AgentEngine.Agent.ProfilePIDs | internal/agent/profiler/common/pids.go:25-62 | For any interleaving the files and the log are those of a complete schedule, with the notice (NoticeMeaning) and the verdict over its error slots; the starts are staggered, and the shared job is not touched |
| AgentEngine.Agent.Iterate | internal/agent/action/profile/profile.go:68-76 | One iteration adds its results and notice, returns the verdict over its per-PID errors, and takes its time and pause; every property that follows from its results being counted right and being as produced holds of it |
| AgentEngine.Agent.IterateAll | internal/agent/action/profile/profile.go:65-77 | The loop runs all iterations and each succeeds, or it ends with the verdict over the per-PID errors of the first that does not; the successful iterations, in either case, keep pace |
| AgentEngine.Agent.Run | internal/agent/action/profile/profile.go:57-82 | The log is Started, the notices of SetUp, each iteration's results and notice, and Ended exactly if SetUp and every iteration succeeded; the error returned is SetUp's or the last Invoke's, and every announced result is true of its file |
| AgentEngine.Agent.Profile | internal/agent/action/profile/profile.go:57-82 | From the process tree to the end: the whole log, with one result for each task that returned nil, and Ended exactly if the run completed; every iteration published something except the one that fails a run; over a clean file system all outcomes, reasons of failure included, are as produced, and the run completes exactly if in every iteration some PID's reference produces an artefact; an empty choice of PIDs fails the run |
| AgentEngine.TargetsMeaning | internal/agent/util/container.go:136-173 | The PIDs of a run are the one given and no other, or else the processes without children, those of them that match the filter if there is one |
| AgentEngine.ResultsFollow | internal/agent/action/profile/profile.go:65-77 | An iteration has results exactly if the run completed or went on after it, and the iteration that fails a run adds nothing to the log |
| AgentEngine.RunMeaning | internal/agent/action/profile/profile.go:65-82 | When outcomes are as produced, the run completes exactly if in every iteration some PID's artefact can be produced |
| AgentEngine.RunLog | internal/agent/action/profile/profile.go:57-82 | A run's log holds Ended exactly if it completed, and one result for each task that returned nil |
| EndToEnd.FromOpen | internal/agent/util/publish/publisher.go:37-80 | Publishing delivers the result file, compressed if asked for, and fails, for the stated reason, if it is missing or cannot be compressed |
| EndToEnd.FromStacks | internal/agent/profiler/perf.go:175-188 | From the raw stacks on, a rendering of enough of them or the stacks themselves are delivered; too few stacks, a failing script and a missing result file each fail for their own reason |
| EndToEnd.PerfEnds | internal/agent/profiler/perf.go:85-188 | The perf pipeline, step by step, delivers what recording, scripting, folding, labelling and rendering come to, or fails with the reason of the first of them that fails |
| EndToEnd.BpfEnds | internal/agent/profiler/bpf.go:85-129 | The same for bpf |
| EndToEnd.AustinEnds | internal/agent/profiler/python_austin.go:223-307 | The same for austin, with conversion, rename, sample check and note |
| EndToEnd.PprofEnds | internal/agent/profiler/go_pprof.go:172-231 | The same for pprof, with its port scan, up to two downloads and two conversions |
| EndToEnd.AloneEnds | internal/agent/profiler/perf.go:85-113 | On its own, a task publishes exactly what its tool's reference produces, or fails for exactly the reason the reference gives |
| EndToEnd.InterleavedEnds | internal/agent/profiler/common/pids.go:32-62 | In any interleaving a PID succeeds exactly if its reference produces an artefact; its published file then holds that artefact and its one result announces it; otherwise nothing is announced and its error is the reference's reason |
| Artefacts.MadeOfLabelledStacks | internal/agent/profiler/bpf.go:85-129 | Every artefact of perf and bpf is the task's own folded stacks, or a rendering of at least fifty bytes of them, with "process: ", the task's PID and ";" before each line, unless they are blank or have a line of 65536 bytes or more |
| Artefacts.RenderedIfEnough | internal/agent/profiler/perf.go:175-188 | A flame graph comes of raw stacks exactly if there are at least fifty bytes of them, for austin any, and the script succeeds |
| Artefacts.PublishedNamesItsPid | internal/agent/profiler/bpf.go:108-113 | In any interleaving, every line of a raw profile that perf or bpf publishes for a PID names that PID, and is a line of that PID's own stacks |
| Artefacts.PublishedName | internal/agent/profiler/common/common.go:20-98 | The published name, spelled out: output type, PID and iteration, the extension for tool and output type, and the compressor's |
| Artefacts.PprofArtefacts | internal/agent/profiler/go_pprof.go:172-231 | An artefact of pprof is one download as it came, or both as text with the heap first, all from the one port that was found or else 8080; no other output comes of it |
| Artefacts.ConvertedInPlace | internal/agent/profiler/python_austin.go:381-397 | In any interleaving, where austin's task ends well nothing is left of the file the binary profile was converted into |
| PprofErrors.GuessIsReported | internal/agent/profiler/go_pprof.go:172-188 | In any interleaving a failing pprof task says that its port was only a guess, and why, exactly if its own PID's port scan failed |
| AustinProfile.NoteAddsNoSamples | internal/agent/profiler/python_austin.go:350-377 | The appended note never reads as a sample line, even if the text lacks its last newline |
| AustinProfile.PublishedFromText | internal/agent/profiler/python_austin.go:249-306 | Every artefact austin publishes is made from a profile that is neither empty nor binary and has a line that starts with P or, for raw output only and without such a line, from that profile and the note |
| AustinProfile.CheckedMeaning | internal/agent/profiler/python_austin.go:265-287 | The sample check, case by case: empty, with a line of 16 MiB or more, with a sample, raw without one, and any other output without one |
| AustinTargets.MapLineRoundTrip | internal/agent/profiler/python_austin.go:138-149 | Parsing a printed map line of any single-spaced path recovers the address range, and the path exactly if it is marked as deleted or does not itself end like the mark |
| AustinTargets.LibpythonFound | internal/agent/profiler/python_austin.go:138-150 | A printed map line yields a candidate exactly if the last part of its path starts with libpython: that path, to be read through the line's own address range below /proc |
| AustinTargets.InterpreterFound | internal/agent/profiler/python_austin.go:125-132 | The first candidate is the interpreter by the path it was started from, marked as deleted or not, to be read through /proc |
| AustinTargets.LibrariesOfMap | internal/agent/profiler/python_austin.go:138-150 | Of a map printed line by line the candidates are those of its lines, in order |
| AustinTargets.FindTargetFiles | internal/agent/profiler/python_austin.go:124-165 | The loops select from the interpreter and the map's libpython lines as specified; an unreadable link or map is an error |
| AustinTargets.FilterCandidates | internal/agent/profiler/python_austin.go:152-164 | The loop over the seen map keeps the usable first candidate of each path |
| AustinTargets.FirstMappingWins | internal/agent/profiler/python_austin.go:152-164 | Selected files keep the candidates' order, are absolute, readable and of distinct paths; every usable first candidate is there, and a path only ever with its first mapping |
| AustinTargets.InterpreterFirst | internal/agent/profiler/python_austin.go:129-132 | The interpreter comes first when usable |
| AustinMounts.AustinCommand | internal/agent/profiler/python_austin.go:92-104 | Without files austin is run directly with -p, -o, -x and -m and their values; with files the same arguments follow the printed directory, count and pairs |
| AustinMounts.ScriptShell.Loop | internal/agent/profiler/python_austin.go:66-74 | Shifting decodes the printed pairs one by one, and what is left are austin's arguments |
| AustinMounts.ScriptShell.Run | internal/agent/profiler/python_austin.go:63-75 | The script on the printed arguments mounts exactly the printed files in order, with the effects DirsMade and PathsShowTheirSources state, and hands austin the same arguments as the direct command |
| AustinMounts.TurnEffect | internal/agent/profiler/python_austin.go:67-72 | Directories aside, a turn changes only the copy and what its path shows |
| AustinMounts.PathsShowTheirSources | internal/agent/profiler/python_austin.go:55-75 | When austin is run, every path shows its own source's content, and every other name shows what it did before or is a new directory |
| AustinMounts.DirsMade | internal/agent/profiler/python_austin.go:63-75 | When austin is run, every directory above every path and every copy is there, every bind was permitted, and nothing is new but paths, copies and the directories above them |
| AustinMounts.ScriptGoesThrough | internal/agent/profiler/python_austin.go:63-75 | With sources present, room for files and directories, and binds permitted, the script does get to austin; cp and touch fail where a directory is missing, so this needs both mkdirs |
| AustinMounts.FoundFilesAreSeparate | internal/agent/profiler/python_austin.go:124-171 | The files found in the memory map meet the mounting script's needs unless the target maps files from the copy directory or /proc |
| AustinSharing.StepsMakeATurn | internal/agent/profiler/python_austin.go:67-72 | The commands that interleave are, one after another, a turn of the script's loop |
| AustinSharing.SharedPathsShowTheirSources | internal/agent/profiler/python_austin.go:55-75 | When several PIDs' scripts interleave command by command over one file system, each with its own mounts, every path a script has mounted shows it its own source, even if another script mounts another file there; other names are left alone |
| AustinSharing.SharedDirsMade | internal/agent/profiler/python_austin.go:69-71 | In every interleaving, for every file a script has mounted, the shared file system holds every directory above its path and above its copy |
| AustinSharing.OthersSeeNoChange | internal/agent/profiler/python_austin.go:55-60 | In every interleaving, whoever is outside the private mount namespaces sees what was there before, at the mounted paths too; copies aside, no more than directories and empty files come up |
| AustinSharing.AllScriptsGoThrough | internal/agent/profiler/python_austin.go:63-75 | In every interleaving no script fails and each mounts all its files within five turns a file, when sources are present, binds permitted, and no file and no script's path or copy is in the way of a directory; cp and touch need the directories both mkdirs make |
| AustinSharing.ScriptsOfPidsAreApart | internal/agent/profiler/python_austin.go:167-171 | Scripts of distinct PIDs stay out of each other's way unless a target maps files from a copy directory or /proc |
| ProcessTree.ChildrenRoundTrip | internal/agent/util/container.go:119-131 | Trimming and splitting what pgrep printed gives the children back; no output means no children |
| ProcessTree.Finder.FillWithChildren | internal/agent/util/container.go:176-191 | The recursion ends and appends exactly the leaves, left to right |
| ProcessTree.LeavesNeverEmpty | internal/agent/util/container.go:149-154 | There is always a leaf, so the error for no PIDs cannot happen |
| ProcessTree.LeavesExact | internal/agent/util/container.go:176-191 | Exactly the processes without children are found |
| ProcessTree.LeavesDistinct | internal/agent/util/container.go:176-191 | Distinct processes give distinct leaves |
| ProcessTree.Select | internal/agent/util/container.go:197-215 | The loop keeps the PIDs whose own ps output matches, and stops at the first ps that fails; the buffer all commands share leaks nothing |
| ProcessTree.MatchMeaning | internal/agent/util/container.go:197-215 | A PID matches exactly if the name stands somewhere in its own trimmed ps output, letter case aside |
| ProcessTree.Finder.Filter | internal/agent/util/container.go:193-218 | Without a name, or when a ps fails, the list is left alone; otherwise it becomes the matching PIDs |
| ProcessTree.KeepExact | internal/agent/util/container.go:193-218 | Kept are exactly the matching PIDs, in order |
| ProcessTree.ChosenDistinct | internal/agent/util/container.go:193-218 | Filtering makes no PID appear twice and adds none |
| ProcessTree.NobodyChosen | internal/agent/util/container.go:193-218 | The list ends up empty exactly if a filter is given and no process without children matches it |
| ProcessTree.GetCandidatePIDs | internal/agent/util/container.go:136-173 | SetUp succeeds exactly if the root is known and, with a filter, every ps succeeds; it yields the chosen leaves, and a notice exactly if there are several |
| BpfSamples.CountSamples | contrib/bpf/profile.py:157-205 | The hook's table after any event stream is the one specified, which OnlyTheProcess, CountedTicks and LossOnlyWhenFull characterise |
| BpfSamples.OnlyTheProcess | contrib/bpf/profile.py:157-218 | Under the agent's flags every key in the table is of the one process, and one sample is counted for each of its ticks that is not idle, no more |
| BpfSamples.CountedTicks | contrib/bpf/profile.py:157-218 | Under any flags one key is recorded for each tick of the process, else of the thread, else of all, idle ones only on demand, in their order, with the tick's own PID and name |
| BpfSamples.SameKey | contrib/bpf/profile.py:168-200 | Two ticks are counted together exactly if process, name and the stacks looked at are the same, and with a kernel stack also the instruction pointer, unless neither points into the kernel |
| BpfSamples.LossOnlyWhenFull | contrib/bpf/profile.py:152-205 | The table tallies a part of the accepted samples, and all of them exactly if their keys fit |
| BpfSamples.PrintFolded | contrib/bpf/profile.py:307-355 | The loop prints the folded lines of all items in order |
| BpfSamples.UserFramesInOrder | contrib/bpf/profile.py:337-341 | The user stack is printed outermost frame first, a lost one as a mark, and one that is not there not at all |
| BpfSamples.KernelNamesInOrder | contrib/bpf/profile.py:322-346 | The kernel stack is printed outermost frame first, too, with the recorded instruction pointer last |
| BpfSamples.KernelFramesInOrder | contrib/bpf/profile.py:342-346 | Before the kernel stack comes a delimiter exactly if asked for and both stacks are there; a lost stack leaves a mark |
| BpfSamples.SamplesConserved | contrib/bpf/profile.py:314-355 | The counts a reader adds up are the samples tallied and what names with newlines invent, before labelling and after, for any pattern of missed stacks; so samples are conserved exactly if the names invent, and after labelling reveal, nothing |
| BpfSamples.PlainNamesInventNothing | contrib/bpf/profile.py:337-355 | Names without newlines invent and reveal nothing |
| BpfSamples.EveryAcceptedTickCounted | contrib/bpf/profile.py:157-355 | From ticks to labelled text: the total is what the table kept, all the ticks asked for (CountedTicks) exactly if their keys fit, and what names invent; it is right exactly if as much is invented as was lost |
| BpfSamples.NewlineInNameInventsSamples | contrib/bpf/profile.py:157-355 | Where samples are not conserved: one tick of a process whose command name holds a count and a newline makes the reader see that many samples nobody took, for any count the name has room for |
| Legend.AddProcessPIDLegend | internal/agent/profiler/utils.go:13-31 | The scanner loop returns the text LegendAllOrNothing characterises, falling back to its input at the first line that is too long |
| Legend.LegendAllOrNothing | internal/agent/profiler/utils.go:13-31 | The input comes back unchanged exactly if blank or with a line of 65536 bytes or more; otherwise the output's lines are the input's, in order, each with "process: ", the PID and ";" in front and without its carriage return, and each ends in a newline |
| Legend.PidReadBack | internal/agent/profiler/utils.go:20-24 | The PID can be read back from a labelled line, between its first space and its first semicolon, and the line after it |
| Legend.LegendKeepsCount | internal/agent/profiler/utils.go:20-24 | The prefix never changes the count read from a line, although it holds a space |
| Legend.LegendTotal | internal/agent/profiler/utils.go:13-31 | The total after labelling is the one before and, unless it falls back, the counts that carriage returns hid |
| Legend.LegendConservesTotal | internal/agent/profiler/utils.go:13-31 | For every input the total is kept exactly if the labelling falls back or no carriage return at a line's end hides a count |
| Legend.ReturnIsExposed | internal/agent/profiler/utils.go:19-25 | Where it is not kept: any count followed by a carriage return is read only after the labelling |
| JfrStop.JcmdProfiler.SetUp | internal/agent/profiler/jvm/jcmd.go:94-131 | It fails exactly if the directories, the candidates or the settings fail; from when the PIDs are known there is a session whose channel has room for one token per PID, and before that nothing changes |
| JfrStop.JcmdProfiler.Play | internal/agent/profiler/jvm/jcmd.go:217-299 | Any moves of pollers, invocations and cleaner lead where the specification says and keep the invariant |
| JfrStop.RunKeeps | internal/agent/profiler/jvm/jcmd.go:217-299 | In every reachable state tokens are conserved in order, every signal follows a check that saw the end, and a poller that took its own token is stopped |
| JfrStop.ResultsRestOnChecks | internal/agent/profiler/jvm/jcmd.go:217-255 | A result or signal exists only if in that iteration the PID's own check failed or its output held neither "running" nor "delayed"; a poller stops on a token exactly if it is its own, and then neither signals nor publishes; nobody does either twice |
| JfrStop.CheckDecides | internal/agent/profiler/jvm/jcmd.go:228-250 | A check whose output holds "running" or "delayed" sends the poller to sleep; any other output, and a failing check, to signal; nothing else changes |
| JfrStop.LookDecides | internal/agent/profiler/jvm/jcmd.go:221-250 | A poller checks only while no token waits and the channel is open; it takes the first token waiting and leaves exactly if that is its own |
| JfrStop.ReportsAreChecks | internal/agent/profiler/jvm/jcmd.go:228-248 | Every report the results rest on is the output of a check of that PID that ended in that iteration |
| JfrStop.EveryIterationPublished | internal/agent/action/profile/profile.go:65-77 | Whatever is stopped, every iteration the run has left behind has a result |
| JfrStop.CleanerNeverBlocks | internal/agent/profiler/jvm/jcmd.go:271-299 | A send always finds room in an open channel, no send or second close follows the close, and tokens received and waiting are always the PIDs sent so far |
| JfrStop.AfterTheClose | internal/agent/profiler/jvm/jcmd.go:217-255 | After the close only pollers that were inside a check can still signal, and only what they signal can still be published |
| JfrStop.CaughtNeverReturns | internal/agent/profiler/jvm/jcmd.go:217-255 | Once a poller left on its token, or looks at the closed channel, its invocation never returns and the iteration is the last |
| JfrLimits.ReturnsUnlessCaught | internal/agent/profiler/jvm/jcmd.go:217-255 | After the close an invocation can still return exactly if its poller has neither left on its token nor looks at the channel |
| JfrLimits.HangingInvocations | internal/agent/profiler/jvm/jcmd.go:217-299 | Some run has a clean-up that ran to its end and an invocation that never returns, exactly in the sessions of JFR recordings with a PID at all |
| JfrStop.StopsOnlyWithItsToken | internal/agent/profiler/jvm/jcmd.go:220-227 | A poller still looking after the close can stop exactly if its token still waits in the channel |
| JfrLimits.StolenTokens | internal/agent/profiler/jvm/jcmd.go:217-299 | Some run leaves a poller looking for its token for ever after a clean-up that ran to its end, exactly in the sessions of JFR recordings of two PIDs or more |
| JfrLimits.AllOrphaned | internal/agent/profiler/jvm/jcmd.go:217-299 | Every such session has a run in which that happens to every single poller |
| Chunks.FileSystem.List | pkg/util/file/file.go:23-30 | The listing holds exactly the matching files, in increasing order of their names |
| Chunks.LessMeaning | pkg/util/file/file.go:23-30 | The order of the listing is that of bytes: the first difference decides, and a prefix comes first |
| Chunks.FileSystem.MergeFiles | pkg/util/file/file.go:123-128 | The inputs are appended one after another, as specified |
| Chunks.MergedContent | pkg/util/file/file.go:123-128 | Merging into a file that is no input adds the inputs' contents in order and changes no other file |
| Chunks.FileSystem.DoWithNativeGzipAndSplit | internal/agent/util/publish/publisher.go:83-141 | Each error case publishes nothing; otherwise one result with the compressed size and every listed chunk with its own size and checksum |
| Chunks.ChunksTrue | internal/agent/util/publish/publisher.go:117-128 | Every announced chunk is there, and its size and checksum are those of its content |
| Chunks.ChunksRebuild | internal/agent/util/publish/publisher.go:102-140 | Merging the announced chunks into a missing file rebuilds the compressed bytes, and their sizes add up to the announced one, exactly if no bytes of an earlier publication are in the way |
| Lifecycle.Process.Play | cmd/agent/main.go:45-62 | Any moves of main, timer, handler and watcher lead where the specification says and keep the invariant |
| Lifecycle.ExitIsCleanedUp | cmd/agent/main.go:213-271 | At exit, the route taken has checked once and its clean-up returned exactly if it saw a profiler; at the end of the grace period that is every profiler ever set; the send on done never blocks |
| Lifecycle.BothRoutesOpen | cmd/agent/main.go:45-62 | As long as the process has not exited, it can still end by itself at the end of the grace period, and it can still be ended by a signal |
| Lifecycle.ExitsHaveCauses | cmd/agent/main.go:213-271 | It ends by itself only after the grace period was over, and through done only after a signal |
| Lifecycle.EarlySignalSkipsCleanUp | cmd/agent/main.go:213-246 | A signal handled before the profiler is set ends the process in mid-profiling without a clean-up |

## Left out

- Foreign commands (perf, profile, austin, mojo2austin, jcmd, wget, ss, gzip, split, flame graph scripts) are functions of the PID, the iteration and the files they are given; they may fail, with or without output.
- The pipelines of async-profiler, py-spy, rbspy and node: the same shape as bpf and perf. jcmd is modelled for its stop protocol only; its recordings' start, conversion and publication are steps that succeed or fail.
- Times: durations and intervals are whole seconds, and the interval is positive, which the code does not validate. Only starts and pauses have times.
- AgentEngine.Agent.Profile: assumes a job with an interval of at most the duration; the job builder refuses others, but not an interval of zero or less.
- Given PIDs are decimal numbers or blank, and no two processes share a PID.
- Additional arguments of the flame graph script are absent, as the job builder leaves them; with a width argument the tasks would share and change one map.
- `file.Write` and `file.Append` swallow errors; in the model they succeed. Creating and renaming a file succeeds too.
- Error texts are constructors carrying the failing command's text. The Started, Ended and Notice events carry no time stamp, and a notice holds its two numbers and its list instead of the sentence made of them.
- EndToEnd.PprofEnds: finding the listening port in the output of `ss`, whose lines are matched by PID substring, is one command that yields a port or fails.
- Isolation.AllNamesOwned: the copies and mount points of austin's script carry at most the PID; `AustinSharing` shows that scripts do not disturb each other all the same.
- EndToEnd.InterleavedEnds: the temporary directory holds no file of the same PID and iteration from before, which a command that succeeds without writing its output would pass on.
- Deliveries.DeliveredRound: the temporary directory holds no file of this or a later iteration from before, for the same reason.
- EndToEnd.AustinEnds: the mount script and the target files are part of the command that runs austin here; `austinErrorMessage` is left out, and austin ending on its interrupt counts as success.
- AustinProfile.PublishedFromText: takes as given that the converter's output is not in the binary format.
- AustinTargets.MapLineRoundTrip: white space is ASCII; a path with two adjacent blanks is read back with one, as in the code.
- AustinMounts.PathsShowTheirSources: no path is mounted over before the script starts; removing the copies afterwards is left out.
- AustinMounts.ScriptGoesThrough: `cp` and `touch` fail for a missing source, a missing directory, and a directory in the file's place; permissions and space on the disk are left out.
- BpfSamples.SamplesConserved: the folded format only; the table's capacity is a parameter.
- ProcessTree.Select: letters are folded as in ASCII.
- JfrStop.CleanerNeverBlocks: CleanUp is called once; a second call would close a closed channel.
- Chunks.FileSystem.List: file names hold none of the pattern characters of a glob. Compressed bytes are characters of a string.
- Chunks.ChunksRebuild: takes as given that split cuts contiguous pieces and names them in increasing order.
- Lifecycle.ExitIsCleanedUp: a clean-up that is called returns; the profiler and its job are set in one step.
- Compressors, JSON encoding, MD5, container runtimes, log gating and command-line flags are library code or plumbing.
- The tables of tools and output types, option parsing and the node heap-snapshot loop would add easy members only.
