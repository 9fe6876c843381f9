# The desktop host, verified

A Dafny model of the coordination code of Message Crate's desktop app
(`src-tauri`), and of the script that names generic functions for the coverage
report. It proves what holds on every run, however the app's threads, the
processes it starts and other copies of the app interleave, and wherever any of
them stops.

`dafny verify dfyconfig.toml` checks the whole project.

## What is modelled

**The local server.** The app finds or starts a Message Crate at its own
address. `Supervisor` is the rule table of `step`, arranged by phase, with the
source's own event-by-event form (`Decide`) proved equal to it. `Host` is
`LocalServer`: the fields under its lock, the processes started, one watcher
thread for each, the probes under way, and a class whose methods are the
source's critical sections. `Output` is the pair of pipes of one server and the
two threads reading them. A run is any sequence of moves: UI calls, probe
answers, polls and reports of watchers, single steps of readers, and the server
process writing or exiting at any moment. A watcher that finds its process gone
clears `child`, lets go of the lock, joins the readers and only then looks at
the generation again; that window is a state of its own (`Reaping`).
`Ownership` proves the invariant that every move keeps, `HostRuns` what moves
do to output, generations, probes and the job count.

**The job slot.** `Jobs` is the slot for one desktop job at a time, with its
cancel flags and release by drop, as values for the interleavings and as
classes for the program's form. `Desktop` joins it to the server: `spawn_job`
counts a job with the server, the slot is released when the body ends, and the
server-side guard only after that. `Guarantees` states what holds on every run
of the two together, `RunsOfRules` that each of their runs is a run of the
rules, and `Reports` what the screens are told and what is started, for each thing
that happens and as the history of a run has it.

**Staging folders.** `FileSystem` has folders, files, symbolic links, devices
and a limit on links. `Paths` resolves paths against it. `Record` and
`RecordRuns` are the record file shared by processes under a lock, with
temporary files, renames, failures and crashes. `Staging` creates, accepts and
deletes folders in the program's form; `StagingRuns` interleaves any number of
deletes, creates, `folder` and `openable` queries and setting changes, one file
system call at a time, each free to stop for ever; creates go by the setting as
they find it.

**The eraser.** `Eraser` reads names with argument lists nested to any depth
and proves that the depth-counting scanners erase exactly those lists.

## What turned out not to hold everywhere

- Resolving a path twice is not always resolving it once. A lookup that runs
  into the limit on links counts as "not there", so names after it are kept as
  written; once the links before it have been resolved away, the lookup
  succeeds. `Paths.ResolvingIsStable` gives the exact condition
  (`Paths.GaveUpOnLinks`): the first missing name is there after all in the real
  folder before it. `Paths.GivingUpIsTooManyLinks` rules it out without that
  lookup, and `Paths.ResolvingCanMoveOn` is a path for every limit.
- For the same reason, and by the same condition, what `open_path` opens is not
  always where the answer's names say, and so not always in a staging folder
  (`Paths.OpenedIsWhereItSays`, `Paths.OpenedCanBeOutside`). An answer can also
  be the name of a link to something outside that is not there yet; nothing
  opens then (`Paths.NothingThereYet`, `Paths.DanglingLinkIsAnswered`).
- `resolve_on_disk`'s comment says that a path that exists comes back
  canonical. `..` is collapsed before any link is followed, so `/link/..` comes
  back as the folder the link is in. The model follows the code:
  `Paths.ExistingResolvesCanonically` says exactly when the promise holds,
  `Paths.PassingNoLinkResolvesCanonically` that it does when no `..` takes back
  the name of a link, and `Paths.NormalizingCanMissALink` is a path for which it
  does not.
- `rmdir` does not take a path that ends in `.`, and what is asked about such a
  path follows a last link. So an emptied folder is finished by a delete of its
  path up to the last name (`Staging.Finishable`), and forgetting a path that
  ends in `.` can leave a link that leads nowhere
  (`Staging.StagingFolders.Delete`).
- A made folder stays accepted until something deletes that folder. A delete
  that has removed a folder and has yet to forget it counts as such: it also
  forgets a folder made anew at the same path in between
  (`StagingRuns.ForgettingDropsAFolderMadeAnew`). `StagingRuns.Threatens` lists
  all that counts, and `StagingRuns.ThreatCanBeCarriedOut` shows that nothing on
  that list is harmless.

## Model

| member | source | states |
|---|---|---|
| Supervisor.Decide | src-tauri/src/local_server.rs:317-456 | Deciding event by event, with state changed in place, comes to the same state and actions as the table by phase, for every state and event |
| Supervisor.RestartIfWanted | src-tauri/src/local_server.rs:461-475 | A restart is a kill and a start with the wanted setting, exactly when a server runs the other way and is starting, or is ready with no job |
| Supervisor.ActionsAreJustified | src-tauri/src/local_server.rs:317-475 | A start follows a free answer while the address is asked, or a kill in the same step; a kill comes only from the app's own server, and from a ready one only on a stop or with no job left; a probe leads to a phase that waits for it |
| Supervisor.PhasesHaveTheirCauses | src-tauri/src/local_server.rs:317-475 | Read backwards: for each phase exactly which events in which states lead to it, and nothing else changes the phase |
| Supervisor.ActionsHaveTheirCauses | src-tauri/src/local_server.rs:317-475 | Each action is asked for exactly when the phase changes in one of the ways that need it |
| Supervisor.StopIsFinal | src-tauri/src/local_server.rs:441-453 | After a stop no sequence of events without a request changes the phase or asks for an action |
| Supervisor.SettledStays | src-tauri/src/local_server.rs:317-453 | The same from every phase in which nothing runs and nothing is asked |
| Supervisor.NothingBeforeTheFirstRequest | src-tauri/src/local_server.rs:241-249 | From the initial state, setting changes and anything else short of a request leave the phase idle and ask for nothing |
| Supervisor.SettingConverges | src-tauri/src/local_server.rs:458-475 | Over every run a starting server runs as wanted, and a ready one does whenever no job runs |
| Supervisor.QuietRunsEnd | src-tauri/src/local_server.rs:342-430 | Without UI, job or stop events the rank bounds how often the phase can still change, so it changes at most `LOCKED_OUT_PROBES + 3` times |
| Supervisor.LongestQuietRun | src-tauri/src/local_server.rs:342-430 | A run that reaches that bound, so it is exact |
| Supervisor.LostRunsDown | src-tauri/src/local_server.rs:361-382 | A lost start asks exactly as many more times as it has probes left |
| Supervisor.LockedOutWaitIsTheStartTimeout | src-tauri/src/local_server.rs:58-90 | The probes after a locked-out start take as long as a start may |
| Output.WriteKeepsInv | src-tauri/src/local_server.rs:900-919 | What the server writes leaves kept lines, flag and readers consistent with its pipes |
| Output.TakeKeepsInv | src-tauri/src/local_server.rs:906-909 | So does a reader taking a line and setting the flag, in any order of the two readers |
| Output.KeepKeepsInv | src-tauri/src/local_server.rs:910-916 | So does a reader keeping its line, an older one evicted |
| Output.CloseKeepsInv | src-tauri/src/local_server.rs:820-824 | So does the end of the server |
| Output.PushIsLastLines | src-tauri/src/local_server.rs:913-916 | Evicting one line and adding one keeps exactly the last 40 |
| Output.DrainedOutputIsWhole | src-tauri/src/local_server.rs:820-829 | Once both readers ended, the kept lines are the last 40 of an order of all both pipes carried up to unreadable bytes, and the flag missed no line |
| Output.Tail.KeepOutput | src-tauri/src/local_server.rs:900-919 | One reader's loop leaves the last lines of what was there and all it could read, and the flag set exactly when some line, evicted or not, says the server listens |
| Output.Tail.KeepLine | src-tauri/src/local_server.rs:910-916 | One line goes in, the oldest goes out when 40 are there |
| Text.JoinedLinesComeApart | src-tauri/src/local_server.rs:921-927 | The output told is the kept lines, which can be told apart in it again |
| Host.AtMostOneFailure | src-tauri/src/local_server.rs:742-760 | A step asks for one of six action lists and at most one start fails, and a failed start asks for nothing more |
| Host.LocalServer.RunEvent | src-tauri/src/local_server.rs:742-760 | Working off the queue does one event and everything it asks for, a failed start reported back, in at most two rounds |
| Host.LocalServer.DoAll | src-tauri/src/local_server.rs:747-758 | The actions of a step are done in order, and each failed start is queued |
| Host.LocalServer.KillServer | src-tauri/src/local_server.rs:621-628 | A kill ends the held process, lets go of it and its readers, and moves the generation on even when nothing is held |
| Host.LocalServer.SpawnAndWatch | src-tauri/src/local_server.rs:777-797 | A start that succeeds holds a new process with its own readers, output and flag under a new generation, with a watcher; one that fails leaves what is held alone |
| Host.LocalServer.ProbeInBackground | src-tauri/src/local_server.rs:763-773 | A probe is under way afterwards, unless no launch is known |
| Host.LocalServer.WatchOnce | src-tauri/src/local_server.rs:805-841 | One pass of the watcher: ends when replaced, takes the readers when the server is gone, else passes on what it heard and the deadline |
| Host.LocalServer.WatchEnds | src-tauri/src/local_server.rs:825-830 | After the readers are joined the exit is reported only under the watcher's own generation |
| Host.LocalServer.EnsureStarted | src-tauri/src/local_server.rs:696-707 | A request keeps the launch, notes a first start only where a start may follow, and is decided on |
| Host.LocalServer.SetOpenToNetwork | src-tauri/src/local_server.rs:713-717 | The setting is decided on and the resulting state reported |
| Host.LocalServer.Status | src-tauri/src/local_server.rs:682-686 | A found Message Crate is asked again and the state reported, whatever the operating system would answer to a start |
| Ownership.MoveKeepsInv | src-tauri/src/local_server.rs:696-843 | Every move of every thread keeps: a running process is `child`; `child` is the newest process of the current generation, its watcher polls, and the phase is starting or ready the way it was started; those phases hold a child or wait for its watcher's report; a ready server wrote that it listens |
| Ownership.ApplyKeepsInv | src-tauri/src/local_server.rs:742-760 | So does every event with all it asks for |
| Ownership.StepFacts | src-tauri/src/local_server.rs:317-475 | What each kind of step does to the app's own server, for every state and event |
| Ownership.SpawnFillsTheVacancy | src-tauri/src/local_server.rs:777-797 | A start never overwrites a held child, and makes the new process the one that is held |
| Ownership.KillVacates | src-tauri/src/local_server.rs:621-628 | After a kill no process of the app's runs and no watcher is current |
| HostRuns.MoveGrows | src-tauri/src/local_server.rs:742-843 | Generations never go back, a new process has a newer one than all before it, an ended process stays ended, and only its own moves change a watcher |
| HostRuns.StaleWatcherIsSilent | src-tauri/src/local_server.rs:808-831 | A watcher whose generation is past does nothing but end, from its poll and from its wait for the readers alike |
| HostRuns.ApplyProbes | src-tauri/src/local_server.rs:742-773 | Every event with all it asks for keeps probes under way and answers waited for in balance; only a stop leaves one over |
| HostRuns.MoveKeepsProbes | src-tauri/src/local_server.rs:696-773 | So does every move |
| HostRuns.MoveKeepsOutputs | src-tauri/src/local_server.rs:777-919 | Every move keeps every server's kept output consistent with its pipes |
| HostRuns.ApplyJobs | src-tauri/src/local_server.rs:436-441 | Only a job's start and end change the number of jobs, whatever else the event causes |
| Jobs.SlotStaysHeld | src-tauri/src/commands/jobs.rs:47-84 | At most one job holds the slot, and the slot names exactly it |
| Jobs.FlagsStayOwn | src-tauri/src/commands/jobs.rs:92-98 | A job's flag is set exactly when a cancel was handled while that job held the slot |
| Jobs.EventsStayExact | src-tauri/src/commands/jobs.rs:105-137 | Each job that came to its end, its slot and its guard released, sent one event, the one its outcome calls for, panics included, and no other job sent any |
| Jobs.EventsSayHowBodiesEnded | src-tauri/src/commands/jobs.rs:113-116 | The finished event stands for a body that returned well, the error event for one that failed or panicked |
| Jobs.JobsRunThrough | src-tauri/src/commands/jobs.rs:109-117 | From its body to its event a job waits for nobody: the slot is freed, then the guard dropped, then the body's outcome reported |
| Jobs.GuardsAfterMove | src-tauri/src/commands/jobs.rs:109-112 | How each move changes the number of live server-side guards, which is never zero when one is dropped |
| Jobs.Start | src-tauri/src/commands/jobs.rs:67-84 | A busy slot is refused with the running job's name and left alone; a free one gets a new job with a fresh flag, not raised |
| Jobs.Cancel | src-tauri/src/commands/jobs.rs:92-98 | The running job's flag is raised and no other |
| Jobs.Job.Drop | src-tauri/src/commands/jobs.rs:47-59 | A job's drop clears the slot only of its own flag |
| Jobs.RunJob | src-tauri/src/commands/jobs.rs:125-137 | A job that ran frees the slot of its own flag and no other, and is told as finished exactly when its body returned well, so not after a panic |
| Desktop.TurnKeepsInv | src-tauri/src/commands/jobs.rs:105-118 | Every step of the server or a job keeps the joint invariant, with the server's job count equal to the live guards, so ending a job never saturates at zero |
| Desktop.ReportsStay | src-tauri/src/local_server.rs:825-830 | Reported generations only grow, and a reported one is over |
| Guarantees.OneServerAndItIsHeld | src-tauri/src/local_server.rs:560-628 | On every run at most one app-started process is alive, it is `child` and was started as the phase says; a phase that says one is there holds it or waits for its watcher's report |
| Guarantees.ReadyMeansItListened | src-tauri/src/local_server.rs:383-387 | On every run the screens are told the app's own server is ready only when the current generation's process itself wrote the listening line |
| Guarantees.RunningServerObeysTheSetting | src-tauri/src/local_server.rs:501-507 | On every run a running server is told to listen on every address exactly when the setting says so, unless a job defers the restart of a ready one |
| Guarantees.EachServerExitsOnce | src-tauri/src/local_server.rs:825-830 | On every run each generation reports at most one exit |
| Guarantees.KilledServersWatcherStaysSilent | src-tauri/src/local_server.rs:808-831 | From the moment its process was killed or replaced a watcher never acts again, however the run goes on, also when it was joining the readers then |
| Guarantees.ProbesAreNeitherLostNorDoubled | src-tauri/src/local_server.rs:763-773 | On every run an awaited answer is on its way; besides it at most one probe per stop is; without stops there is exactly one when waited for and none otherwise |
| Guarantees.ExitReportCarriesTheOutput | src-tauri/src/local_server.rs:815-829 | On every run every exit that is reported becomes a lost start or a failure with the last lines of all that both pipes carried |
| Guarantees.StopEndsEverything | src-tauri/src/local_server.rs:727-731 | After a stop at any point of any run nothing runs, and no late answer, watcher, setting or job changes the phase, starts a process or asks the address until the next request |
| Guarantees.NoServerBeforeTheFirstRequest | src-tauri/src/local_server.rs:709-717 | On every run without a request no process was ever started |
| Guarantees.JobSlotProtocol | src-tauri/src/commands/jobs.rs:47-137 | On every run: one slot holder, own flags, exact events, and as many jobs counted as guards alive |
| Guarantees.ImportIsProtected | src-tauri/src/commands/jobs.rs:100-118 | From any point in a job's body to any later one the ready server is neither killed nor restarted, whatever the setting, the screens and overlapping jobs do: only a stop or its own exit ends it |
| Reports.AnswersAreTold | src-tauri/src/local_server.rs:342-360 | While the address is asked, a Message Crate is told as found, another program as the port being taken, and a free address as a server coming up, or as down with the reason it could not be started |
| Reports.LostStartsAreTold | src-tauri/src/local_server.rs:361-382 | After a lost start a Message Crate is told as found, another program as that start's failure, and a free address as still coming up until the probes run out |
| Reports.StatusTellsTheLastAnswer | src-tauri/src/local_server.rs:342-360 | On every run a Message Crate is told as found, or the port as taken, only when the last answer that was waited for said so |
| Reports.RequestsAreTakenUp | src-tauri/src/local_server.rs:696-707 | A request keeps launch and setting and leaves an answer waited for; where nothing was under way the screens see a start, for the first time when there is no database |
| Reports.FoundIsAskedAgain | src-tauri/src/local_server.rs:682-686 | Asking for the state asks a found Message Crate once more, and does nothing else |
| Reports.StopsAreTold | src-tauri/src/local_server.rs:441-453 | What each phase is told as after a stop |
| Reports.ListeningIsTold | src-tauri/src/local_server.rs:832-834 | Once the server has said that it listens and its watcher hears it, the screens are told it is ready, also past the deadline |
| Reports.TooLateIsTold | src-tauri/src/local_server.rs:835-840 | A server not heard by the deadline is killed and told as down with its output, and nothing of the app's runs |
| Reports.QuietPollsChangeNothing | src-tauri/src/local_server.rs:805-841 | Any other poll of a running server changes nothing |
| Reports.ExitsAreNoticed | src-tauri/src/local_server.rs:811-819 | The next poll notices an exit, and takes along that server's readers and output |
| Reports.ExitsAreTold | src-tauri/src/local_server.rs:403-430 | A ready server that exited is told as down with its output; one that was starting is asked for once more, or as long as a start may take exactly if it was locked out |
| Text.ContainsIsAnywhere | src-tauri/src/local_server.rs:405-409 | Being locked out is read off the output wherever in it that stands |
| Reports.EndedServersCanBeReported | src-tauri/src/local_server.rs:820-829 | On every run the readers of a server that ended can end by their own steps, so that its exit is reported |
| Reports.MovesStartFromTheLaunch | src-tauri/src/local_server.rs:777-797 | Whatever a move starts has the program, the data folder and the address of the launch then held |
| Reports.ServersAreThoseRequested | src-tauri/src/local_server.rs:501-507 | On every run that is the launch of the last request; a server is told to listen at its port, and at its address unless it is open |
| Reports.ServersKeepTheirLaunch | src-tauri/src/local_server.rs:777-797 | And it keeps what it was started with, whatever is requested later |
| Reports.WantedIsTheLastSetting | src-tauri/src/local_server.rs:696-717 | On every run the setting gone by is the one last given, with a request or by itself |
| Reports.RunningServerObeysTheLastSetting | src-tauri/src/local_server.rs:458-475 | On every run a running server was started open exactly when the person last said so, unless a job defers the restart of a ready one |
| Reports.EventsTellTheOutcome | src-tauri/src/commands/jobs.rs:105-137 | On every run a job has sent the finished event exactly when it reported that its body returned well, and the error event exactly when it reported a failure or a panic; and that is how its body ended |
| RunsOfRules.RunIsARunOfTheRules | src-tauri/src/local_server.rs:739-843 | Every run of the desktop, with its failed starts, watchers and jobs, takes the state where some sequence of events takes the rules, with no more changes of the phase; without UI, job or stop turns none of those events is one of theirs |
| RunsOfRules.QuietDesktopSettles | src-tauri/src/local_server.rs:342-430 | From any point of any run, while no screen, job or stop plays a part, the phase changes at most `LOCKED_OUT_PROBES + 3` more times; the probes left never exceed that constant |
| Record.RecordFile.ChangeRecord | src-tauri/src/staging_folders.rs:104-113 | A change is written whole or not at all, and never over a damaged file |
| Record.RecordFile.Retain | src-tauri/src/staging_folders.rs:330-335 | The loop keeps exactly what `Without` does |
| Record.WithoutIsExact | src-tauri/src/staging_folders.rs:330-335 | Forgetting drops every entry at that path and no other |
| RecordRuns.LockStays | src-tauri/src/staging_folders.rs:115-135 | Every step of every thread, crashes included, keeps a writer alone and readers apart from it |
| RecordRuns.ViewStays | src-tauri/src/staging_folders.rs:104-113 | What a writer has read is what the file holds until it renames, whatever other threads do, and its temporary file is its own record whole |
| RecordRuns.EveryRunIsSerial | src-tauri/src/staging_folders.rs:92-151 | On every run of any number of processes, crashing anywhere, the file is the committed changes one after another, each read saw such a file, and a damaged file is left as it is |
| RecordRuns.NoFolderIsLost | src-tauri/src/staging_folders.rs:329-363 | A folder is recorded exactly when it was recorded or added and not forgotten since, by whichever process |
| RecordRuns.RootIsTheLastStored | src-tauri/src/staging_folders.rs:187-212 | The setting in the record is the one stored last, whatever folders were recorded and forgotten since |
| RecordRuns.UndisturbedChangesCommit | src-tauri/src/staging_folders.rs:104-135 | A change that finds the lock free and a record that reads takes effect and releases the lock |
| RecordRuns.UndisturbedReadsAnswer | src-tauri/src/staging_folders.rs:92-95 | A read that finds no change under way answers what the file holds |
| RecordRuns.ReadersLearnTheFolders | src-tauri/src/staging_folders.rs:87-151 | On every run a read of a damaged file is an error and never an empty record; any other read has exactly the folders that the changes made so far, by whichever process, added and did not forget, and the setting stored last; a later read sees no fewer changes |
| FileSystem.WalkOn | src-tauri/src/commands/paths.rs:278-289 | A longer path is looked up from where its beginning leads, links and the limit on them included |
| FileSystem.WalkEndsReal | src-tauri/src/commands/paths.rs:287-287 | The canonical form of a path stands for something that is no link |
| FileSystem.WalkReal | src-tauri/src/commands/paths.rs:287-287 | A canonical form leads to itself and follows no link |
| FileSystem.MoreLinksChangeNothing | src-tauri/src/commands/paths.rs:278-287 | A lookup that did not run out of links comes to the same with any higher limit on them |
| FileSystem.DotsAskForFolders | src-tauri/src/staging_folders.rs:305-323 | A path leads where an equal one without `.` does, but that one ending in `.` asks for a folder there |
| Paths.NormalizeLexically | src-tauri/src/commands/paths.rs:233-246 | The loop collapses `.` and `..` as the definition from the end of the path does, with `..` above the top left out |
| Paths.NormalizingIsStable | src-tauri/src/commands/paths.rs:233-246 | Collapsing twice is collapsing once |
| Paths.NormalizingKeepsMeaning | src-tauri/src/commands/paths.rs:232-246 | When no `..` takes back the name of a link, an existing path leads to the same place, with as many links left, once it is collapsed |
| Paths.NormalizingCanMissALink | src-tauri/src/commands/paths.rs:268-273 | Past a link `..` is collapsed to another place than the path leads to, and resolved there |
| Paths.ResolveOnDisk | src-tauri/src/commands/paths.rs:274-290 | The loop ends with the nearest existing ancestor, the missing names in order after its canonical form |
| Paths.ExistingResolvesCanonically | src-tauri/src/commands/paths.rs:265-290 | A path that exists resolves to where it really is if and only if its collapsed form exists and leads to the same place |
| Paths.PassingNoLinkResolvesCanonically | src-tauri/src/commands/paths.rs:265-290 | A path that exists and whose `..` take back no link's name resolves to where it really is, and that form to itself |
| Paths.ResolvingIsStable | src-tauri/src/commands/paths.rs:265-290 | Resolving twice is resolving once if and only if the first missing name is really missing, and not only past the limit on links |
| Paths.GivingUpIsTooManyLinks | src-tauri/src/commands/paths.rs:278-286 | Only where the lookup of the first missing name ran into the limit on links: a lookup that did not rules it out |
| Paths.ResolvingCanMoveOn | src-tauri/src/commands/paths.rs:278-289 | Under every limit on links some path resolves twice to two different places |
| Paths.MissingNamesComeAfter | src-tauri/src/commands/paths.rs:268-273 | When the first name below a root does not exist, resolving the path is resolving the root and appending the names, symbolic links above included |
| Paths.OpenableStaysInside | src-tauri/src/commands/paths.rs:325-357 | An openable path is answered with names below those the staging folder resolves to, which is never the root; an answer that `open_path` finds something at is really there, in the staging folder, if and only if the path existed or its lookup had not given up on links; an existing path stays openable by its answer |
| Paths.OpenedIsWhereItSays | src-tauri/src/commands/paths.rs:154-159 | What opens is where its own names say if and only if the path existed or its lookup had not given up on links |
| Paths.NothingThereYet | src-tauri/src/commands/paths.rs:217-230 | An answer that leads to nothing comes, after real folders, to a name that is missing or is a link |
| Paths.DanglingLinkIsAnswered | src-tauri/src/commands/paths.rs:217-230 | Such a link can lead out of the staging folder; it is answered, and refused by the check that something is there |
| Paths.OpenedCanBeOutside | src-tauri/src/commands/paths.rs:318-345 | Under every limit on links there is a path whose lookup gave up on links and whose answer passes that check and leads outside |
| Paths.MissingBelowRootIsOpenable | src-tauri/src/commands/paths.rs:318-345 | A path not there yet right below the staging folder is openable, whatever links stand above |
| Paths.FoldersCanBeTheRoot | src-tauri/src/commands/paths.rs:304-316 | Any folder but the root, there yet or not, with no link on the way can be the Staging Directory, and no relative path can |
| Staging.OpenableIsInAMadeFolder | src-tauri/src/staging_folders.rs:344-351 | An answer has names below those some recorded folder resolves to, its own where it stands; what `open_path` then finds is really there if and only if the path existed or its lookup had not given up on links; a path is refused exactly when every recorded folder refuses it |
| Staging.OpensHoweverWritten | src-tauri/src/staging_folders.rs:337-351 | A path in a recorded folder that is there, with no link on the way, is openable by its names, with or without `.` in it, whether there is something yet or not |
| Staging.MarkedIsAccepted | src-tauri/src/staging_folders.rs:268-291 | A recorded folder holding its sentinel is accepted by its own name |
| Staging.AnsweredByWhereItLeads | src-tauri/src/staging_folders.rs:268-291 | Any path, through whatever links, that leads to a recorded folder holding its sentinel is answered with that folder; one that leads to none, to one not recorded or to one without the sentinel is refused |
| Staging.AcceptedMayBeRemoved | src-tauri/src/staging_folders.rs:268-291 | An accepted folder is recorded under its canonical path and holds the sentinel |
| Staging.StagingFolders.RemoveEntry | src-tauri/src/staging_folders.rs:411-419 | However far it gets, an entry's removal takes away only that entry and what is below it, and links are removed as links |
| Staging.StagingFolders.RemoveSentinelLast | src-tauri/src/staging_folders.rs:405-423 | Whatever the order and wherever it stops, the folder still holds its sentinel, or is empty, or is gone; nothing outside it goes; without faults it is gone |
| Staging.NamesMeanEqual | src-tauri/src/staging_folders.rs:311-332 | The names a path is recorded and forgotten by are those of the paths equal to it, component by component |
| Staging.GoneInAFolder | src-tauri/src/staging_folders.rs:366-382 | However its path is written, what is in a folder that is still there is gone exactly when it is not there and the device is the one it was made on |
| Staging.UnpluggedIsNotDeleted | src-tauri/src/staging_folders.rs:366-382 | A recorded folder not found where its parent is on another device is not deleted and stays recorded |
| Staging.GoneIsDeleted | src-tauri/src/staging_folders.rs:312-314 | One on the same device, or recorded without one, counts as deleted and is forgotten |
| Staging.StagingFolders.Delete | src-tauri/src/staging_folders.rs:305-327 | For every way to write the path: without faults it succeeds exactly on what is gone, recorded and empty, or accepted; success forgets exactly the target, which is not there any more unless it is a link that a last `.` followed, and an error leaves the record as it was; files go only from a recorded folder that held the sentinel or was empty, which a later delete can still finish |
| Staging.StagingFolders.ForgetPath | src-tauri/src/staging_folders.rs:329-335 | Exactly the entries at an equal path are dropped, or nothing is changed |
| Staging.FinishableWays | src-tauri/src/staging_folders.rs:305-323 | Which of its three ways a delete takes for a recorded folder in each state an earlier one leaves |
| Staging.StillFinishable | src-tauri/src/staging_folders.rs:315-322 | A delete cut short leaves a folder that a delete can take up |
| Staging.DeleteThenFinish | src-tauri/src/staging_folders.rs:293-327 | A delete cut short anywhere, and one more without faults: the folder is gone and unrecorded, and the rest of the record untouched |
| Staging.StagingFolders.SetStagingRoot | src-tauri/src/staging_folders.rs:195-212 | After it succeeds the root in use is the one given, component by component, or the default when nothing was given, with no setting stored then or when the default was written out; the folders stay; only what could be a Staging Directory is taken |
| Staging.DefaultIsInHome | src-tauri/src/staging_folders.rs:153-159 | The default is `message-crate` in the home folder, and there is none without one |
| Staging.StagingFolders.CreateDirAll | src-tauri/src/staging_folders.rs:229-230 | Without faults it succeeds exactly when what is there of the way leads to a folder in which the next name is not there, links followed; it makes the rest there and touches nothing that was there |
| Staging.MadeWhereItResolves | src-tauri/src/staging_folders.rs:228-230 | The Staging Directory is made where it resolved to, exactly unless its lookup had given up on links |
| Staging.StagingFolders.Create | src-tauri/src/staging_folders.rs:226-259 | Without faults it succeeds exactly when the label is valid, the record reads, and the Staging Directory resolves and can be made; a created folder was not there, is right in the Staging Directory, holds only its sentinel, is recorded and accepted; an error records nothing; nothing that was there is touched |
| Staging.StagingFolders.MakeFirstFree | src-tauri/src/staging_folders.rs:231-245 | The loop of attempts ends, and makes the first name of its sequence at which nothing was there |
| Staging.AttemptsDiffer | src-tauri/src/staging_folders.rs:239-239 | No two attempts have the same name |
| Staging.AttemptReads | src-tauri/src/staging_folders.rs:239-239 | A further attempt is the name, a dash and the attempt's number |
| Staging.FolderNameReads | src-tauri/src/staging_folders.rs:231-231 | A folder's name reads `staging-`, the short form of the label, a dash and the time |
| Staging.LabelsRead | src-tauri/src/staging_folders.rs:440-455 | Which labels are valid, and how three of them are shortened |
| Staging.SlugIsOneName | src-tauri/src/staging_folders.rs:440-455 | No label leads anywhere but to one folder name |
| StagingRuns.MadeFolderStaysAccepted | src-tauri/src/staging_folders.rs:195-351 | Over every run of deletes, creates, queries and setting changes by any processes a made folder stays accepted and what is in it openable, however their paths are written, until an operation threatens it, by removing it, its sentinel or an entry it is in or by having yet to forget its path, or it is changed from outside |
| StagingRuns.AcceptedUntilADeleteBegins | src-tauri/src/staging_folders.rs:305-327 | With no such threat at the start, it stays so until a delete that was accepted for it or for a folder around it begins to remove |
| StagingRuns.QueriesAreAnswered | src-tauri/src/staging_folders.rs:268-291 | A `folder` query for it under way on such a run is answered after three of its steps, whatever happens in between, unless it is stopped |
| StagingRuns.OpenQueriesAreAnswered | src-tauri/src/staging_folders.rs:344-351 | An `openable` query for what is in an accepted folder answers it |
| StagingRuns.DeletesRunThrough | src-tauri/src/staging_folders.rs:305-335 | From every state in which a folder is accepted, a delete of it, however written, can go on by its own steps until the folder is gone and forgotten |
| StagingRuns.AttemptsGoOn | src-tauri/src/staging_folders.rs:234-245 | A create that finds names taken goes on by its own steps to the first that is not |
| StagingRuns.ThreatCanBeCarriedOut | src-tauri/src/staging_folders.rs:305-335 | Each of those is a threat: from every state in which the folder is accepted, steps of that one operation can leave it refused |
| StagingRuns.ForgettingDropsAFolderMadeAnew | src-tauri/src/staging_folders.rs:324-326 | From every state in which some delete has yet to forget a removed folder, whatever else is under way, a create by the setting makes it anew and accepted, and the forgetting leaves it marked and refused |
| StagingRuns.DeletesLeaveItFinishable | src-tauri/src/staging_folders.rs:305-423 | Over every run, with any number of deletes of one folder at once, each stopping anywhere, and creates that find its name taken, the folder holds its sentinel, or is empty, or is gone; it is recorded while it is there, and while it is recorded a delete without faults finishes it |
| StagingRuns.MadeFolderIsFinishable | src-tauri/src/staging_folders.rs:226-259 | A folder just made at a path not recorded before is where such runs may start |
| StagingRuns.SentinelsAreLast | src-tauri/src/staging_folders.rs:405-421 | On every run no delete has the sentinel among what it removes first |
| StagingRuns.RemovalsWereChecked | src-tauri/src/staging_folders.rs:305-327 | On every run, what a delete goes on to remove had been seen recorded and holding its sentinel, or recorded and empty |
| StagingRuns.TakesAreInside | src-tauri/src/staging_folders.rs:405-423 | A step takes away nothing but the empty folder a delete was asked for, what is in the folder it removes, that folder's sentinel, or it |
| StagingRuns.SettingPlaysNoPart | src-tauri/src/staging_folders.rs:8-12 | Two runs whose settings differ, so that creates make other folders in other places, take the same steps and give the same answers in every delete of a folder and every query for it and what is in it, however written, and leave it standing and recorded the same |
| StagingRuns.CreatesAreAside | src-tauri/src/staging_folders.rs:226-259 | While a folder is there, every step of a create, from reading the setting to recording, leaves alone what is at, above or below that folder, as long as its Staging Directory does not lead into it |
| Eraser.SkipReadsTheList | scripts/uncovered-functions.py:41-52 | Counting depth, with `->` let through, finds the `>` that reading the nested lists finds, at every depth |
| Eraser.ReadListPrints | scripts/uncovered-functions.py:41-52 | What is read as a list prints back as the text it was read from |
| Eraser.PrintedListReadsBack | scripts/uncovered-functions.py:41-52 | A list of any nesting prints to a text that reads back as it, followed by whatever follows |
| Eraser.TurbofishPrintsBack | scripts/uncovered-functions.py:35-56 | Every name is its kept characters, its lists and at most one list never closed, with nothing lost |
| Eraser.TypesPrintBack | scripts/uncovered-functions.py:59-77 | The same for lists after a type or trait name |
| Eraser.StripArgsErases | scripts/uncovered-functions.py:35-56 | For every name, stripping is reading it and printing all but the `::<...>` lists |
| Eraser.StripTypesErases | scripts/uncovered-functions.py:59-77 | The same for lists after a type or trait name |
| Eraser.TurbofishGoes | scripts/uncovered-functions.py:35-56 | A well-formed `::<...>` of any depth goes whole, and what stands before it stays |
| Eraser.TypeListGoes | scripts/uncovered-functions.py:59-77 | After a character of a word a well-formed list of any depth goes whole |
| Eraser.WrapperStays | scripts/uncovered-functions.py:59-77 | Any other angle bracket, such as the wrapper of a qualified path, and every other character stay |
| Eraser.FindClose | scripts/uncovered-functions.py:41-51 | The inner loop stops at the closer, or at the end when there is none |
| Eraser.StripGenericArgs | scripts/uncovered-functions.py:35-56 | The first scanner's loop computes `StripArgs` |
| Eraser.StripTypeGenerics | scripts/uncovered-functions.py:59-77 | The second scanner's loop computes `StripTypes` |
| Eraser.PassShortens | scripts/uncovered-functions.py:83-86 | A pass that changes the name shortens it, and one that does not has nothing to fold |
| Eraser.NothingLeftToFold | scripts/uncovered-functions.py:82-86 | No `::{...}` component is left at the end |
| Eraser.PassPrunes | scripts/uncovered-functions.py:83-83 | One pass takes out exactly the innermost closures |
| Eraser.FoldingErasesClosures | scripts/uncovered-functions.py:80-86 | Folding to the end takes out every closure, however deep they nest, and keeps every other character |
| Eraser.FunctionKey | scripts/uncovered-functions.py:80-86 | The loop ends, with the folded name and no component left |

## Left out

- Host.StatusOf: keeps the variant and the details of a failure, not the sentences shown or the port named in one of them.
- Host.Bind: the other arguments of the server program are not modelled, nor IPv6 addresses that also mean every address.
- Output.Tail.KeepOutput: is one reader at work alone; two at once are `Output.Take` and `Output.Keep` in any order.
- Guarantees.ImportIsProtected: does not cover the kill or exit of the server from outside the app.
- Staging.StagingFolders.Create: a folder the operating system puts its own files into is not modelled.
- Staging.StagingFolders.Delete: runs alone, faults apart; deletes side by side are in `StagingRuns`. Its faults are a number of removals after which the next fails, and a failure of the record.
- StagingRuns.DeletesLeaveItFinishable: assumes that nobody deletes a folder around the one in question, makes one in its place once it is gone or writes into it from outside, and that no folder above it is replaced by a link while it is being removed.
- StagingRuns.MadeFolderStaysAccepted: reads and changes of the record are single steps, which `RecordRuns` justifies; so are resolving the setting, finding where the Staging Directory is once it is made, and `openable` with its look at the record.
- StagingRuns.SettingPlaysNoPart: is about queries and deletes that name the folder by its canonical path, as the record does; a path through links elsewhere can depend on what is made there.
- RecordRuns.EveryRunIsSerial: another program may change the file only while no change is under way, and the history starts again from there.
- Eraser.StripTypeGenerics: what counts as a character of a word is a parameter, not Python's tables.
- The HTTP probe and the test for a Message Crate's answer: an answer is any of the three, at any time. A probe keeps no address of its own.
- Wall-clock time: polls, deadlines and probes come at any moment.
- Process handling: killing, waiting and asking whether a process ended are taken at their word, and no process started by the server holds its pipes open.
- Machine integers: generations, job counts and probes left do not overflow.
- Lock poisoning, Windows prefixes and console flags, trimming and encoding of path text, and paths whose text ends in `/`.
- Lengths of paths and permissions: the only lookups that fail are those of something missing, through a file, or past the limit on links. Rust's `exists` also says no to a path that is too long or may not be read, so giving up can have those reasons too.
- Status and error wording, JSON, log lines, `describe` and `timestamp_now`.
- The Tauri commands around these modules, and the crates they call.
- The reading of the coverage report and the printing in `main`.
