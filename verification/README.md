# A verified model of the desktop window's server lifecycle

My Claude Code's desktop window keeps a server running behind one page: it
watches a port, decides whether a silent server is slow or dead, rescues a dead
one, starts a new one, installs what is missing, and never gives up. This
project models that decision loop in Dafny and proves what it promises over
whole runs. It also proves six smaller pieces the loop and its smoke suite rest
on: the status document from the command that writes it to the window that reads
it, the HTTP head reader, the rescue report reader, the toast escaper, the
assembly of streamed messages, and the pending-voice index.

Verify everything with `dafny verify dfyconfig.toml`.

## How it is laid out

| files | what they hold |
|---|---|
| `Controller.dfy` | the controller: 13 states, the observation, the 12 effects, the decision table and the step function |
| `Grounds.dfy` | what an observation shows, in its own terms: when each verdict, a start, a rescue or an install is due |
| `ControllerLaws.dfy`, `Table.dfy`, `States.dfy` | one step against those grounds: the one effect that acts, where the step leads and what it shows; what each state stands on |
| `StatusDocument.dfy`, `StatusWriter.dfy`, `RescueReport.dfy` | the reader of the status document, the command that writes it, and the reader of a rescue's report |
| `Sampler.dfy` | what one pass of the loop does to the window's memory, as functions of that memory and of the world's answers |
| `Lifecycle.dfy` | the loop as an object whose methods update its fields in place, each proved against `Sampler` |
| `Runs.dfy` | whole runs: ticks chained from a fresh start, and how every remembered fact moves across one of them |
| `Evidence.dfy`, `Licence.dfy`, `Spacing.dfy`, `Children.dfy`, `TwoServers.dfy`, `ForgottenChild.dfy`, `GoneServers.dfy`, `HolderClock.dfy`, `StartBudget.dfy`, `DeadRuns.dfy`, `RescueEnds.dfy`, `Cadence.dfy`, `Counters.dfy` | theorems about every run of the whole window |
| `Walks.dfy`, `ExactMoment.dfy`, `Confirmation.dfy`, `RunWalks.dfy` | theorems about every walk of the controller, any observations from any state, and their transfer to runs |
| `Text.dfy`, `TextLaws.dfy`, `Health.dfy`, `ChunkingLaws.dfy`, `BodyLaws.dfy`, `HeadLaws.dfy`, `PidLaws.dfy` | the health probe: lossy UTF-8, lines and numbers, the read loop over a socket, the head reader |
| `Notify.dfy` | the toast document |
| `ContentBlocks.dfy`, `ContentLaws.dfy`, `MessageLaws.dfy` | streamed message assembly |
| `PendingIndex.dfy`, `PendingVoiceLaws.dfy`, `PendingOrder.dfy`, `PendingVoice.dfy` | the two-key index: what each operation makes of it, what it keeps, and the object updated in place |

The laws of one step never speak in the controller's own terms: `ControllerLaws`,
`Table` and `States` say what an observation and the settings lead to through the
predicates of `Grounds`, which ask no function of the controller, and the theorems
about runs inherit them.

A **run** is a sequence of ticks from a fresh start. The environment chooses, on
every tick, the clock readings, the probe's answer, every status document, the
child's exit, the rescue's report, the helper's file and the buttons. A theorem
about runs holds for all of those choices.

## What the proofs found

- **At most one live server is not unconditional.** A failed wait on the child is
  read as an exit (`desktop-shell/src-tauri/src/process.rs:527-545`), so a
  running server is let go and another can be started beside it.
  `ForgottenChild.TwoServersAtOnce` is a four-tick run that does it;
  `TwoServers.TwoRunExactlyWhenOneIsLeftBehind` says exactly which runs can.
- **The outcome of a probe can depend on how the answer is cut into packets.**
  The read loop stops at the blank line only between two reads, so a 503 whose
  body spells a marker line is "shutting down" when it arrives in one piece and a
  plain 503 otherwise. The status code, and so whether a server is healthy, never
  depends on it. `BodyLaws.DeliveryMattersOnlyWhenUnsettled` is the exact
  condition and `HeadLaws.BusyAnswer` the instance.
  The pid an answer names is in the same position: `PidLaws.HealthyAnswer` is a
  healthy answer that names 7 in one piece and no pid in two, and
  `PidLaws.DeliveryMattersToThePidOnlyWhenUnsettled` the exact condition.
- **`server_start_retries + 1` is 32-bit.** The shipped release profile has no
  overflow checks, so at the largest value the start budget is nothing: a child
  that is one second old is rescued as one that never opened its port
  (`StartBudget.RescuedAfterASecond`). `StartBudget.BudgetIsWhole` says that it
  is the only such value, `StartBudget.WholeBudgetIsKeptExactly` exactly which
  settings keep the promise, and `StartBudget.NeverBoundWaitsTheWholeBudget`
  carries it to every run. The settings module allows 0 to 20
  (`src/my_claude_code/config/limits.py:256`), so only a document from elsewhere
  carries the failing value.
- **A rescue can name another process than the one found dead.** The process
  lookup belongs to a probe of a health URL. When the document in hand has none,
  the last lookup is remembered, while the pid that is named may come from a newer
  document (`GoneServers.NamesAnotherProcess`). `GoneServers.NamesTheDeadExactly`
  is the exact condition: a rescue that names something names the process the
  last lookup found dead if and only if there was a URL to probe, or that process
  had named itself in an answer, or no document was read since, or the newest one
  names it too. The command always writes a health URL
  (`src/my_claude_code/cli/desktop_status.py:254`) and takes the server's pid from
  the holder (`src/my_claude_code/cli/desktop_status.py:346`), so a document
  without a URL, or a free port with a pid, comes only from elsewhere.
- **A server that is starting reads as a free port without `--presence-v2`.** The
  status command answers an old window in words it knows
  (`src/my_claude_code/cli/desktop.py:294-298`), and "free" makes the holder
  absent. This window always asks with the flag
  (`desktop-shell/src-tauri/src/process.rs:300-301`).
  `StatusWriter.FlagTellsAStartFromAFreePort` says exactly when the two readings
  differ.
- **A seed can break the pending-voice index.** Reusing one id of a pending note,
  or giving a note one id twice, leaves a note without its two keys.
  `PendingVoiceLaws.SeedKeepsExactly` is the exact condition,
  `PendingVoiceLaws.OneIdBreaks` and `PendingVoiceLaws.ReusedIdBreaks` are
  instances.

Points where the model follows the code rather than what one might expect: a
tick spent on fetching the window's own pinned release leaves the state as it
is, even a paint tick; a paint tick with another dead reason keeps the old
confirmation; after an update a dead server is started over directly, without a
rescue; and the "Take port" button forgets the last start, which is why start
spacing speaks of runs between two presses.

## Model

| member | source | states |
|---|---|---|
| ControllerLaws.StepActs | desktop-shell/src-tauri/src/controller.rs:1125-1401 | a step's list of effects -- pushed to, filtered and retained along the branches -- reaches outside the window by exactly the one effect, or none, that a table over the observation and the settings gives |
| Grounds.DecideExactly | desktop-shell/src-tauri/src/controller.rs:866-912 | each of the ten verdicts is given if and only if the observation shows its own grounds: the grace, a reading older than a known death, who holds the port and under which pid, a handshake, and what is known of the server and the child |
| Grounds.ConfirmedExactly | desktop-shell/src-tauri/src/controller.rs:939-964 | a death is settled if and only if the agreeing checks and their span reach the numbers of the settings: the threshold and one, as many ticks of at least a second, or the budget beyond the grace |
| Grounds.PreemptionsExactly | desktop-shell/src-tauri/src/controller.rs:1057-1075 | an installer counts as near while it runs and for thirty seconds after, and a stranger as confirmed after the foreign grace |
| ControllerLaws.StartsExactlyWhen | desktop-shell/src-tauri/src/controller.rs:991-1011 | outside `Rescuing`, in every state, a tick starts a server if and only if nothing answers on a fresh tick, the port is proven free and no confirmed stranger's, no child runs or never opened its port, servers are started here, the backoff, a second and the grace have passed, and no server is known or an update ended it |
| ControllerLaws.RescuesExactlyWhen | desktop-shell/src-tauri/src/controller.rs:1019-1039 | any tick rescues if and only if a server is dead for the reason on such a tick, its death is settled, no update ended it, no rescue runs and both backoffs have passed; and it names just the pids it knows |
| ControllerLaws.InstallsExactlyWhen | desktop-shell/src-tauri/src/controller.rs:1139-1221 | any tick runs the installer if and only if My Claude Code is missing on a fresh tick, no installer is near, the last one's outcome is known and fewer than three were run |
| Table.StepIsTheTables | desktop-shell/src-tauri/src/controller.rs:1125-1401 | for every state and observation, the next state and the pages, overlays and announcements are those of two tables over the observation and the settings |
| ControllerLaws.StepDeadActs | desktop-shell/src-tauri/src/controller.rs:1607-1697 | a dead server is rescued when the waits are over and its death is settled, counting this check, and otherwise nothing is added to what the tick asked for |
| ControllerLaws.StepRescuingActs | desktop-shell/src-tauri/src/controller.rs:1702-1804 | in `Rescuing` only a report that licenses it starts a server, and a pending status question is dropped |
| ControllerLaws.EffectDiscipline | desktop-shell/src-tauri/src/controller.rs:836-841 | at most one effect per tick reaches outside the window; a paint tick only to fetch the pinned window; beside a live installer nothing is started, installed or rescued; outside spawn mode nothing is started or rescued |
| ControllerLaws.ActingNeedsProof | desktop-shell/src-tauri/src/controller.rs:866-912 | every start and every rescue, from every state, rests on a silent fresh tick and either a licence or a proven-free port past backoff and grace; a rescue names the known and the child pid and a death settled by the numbers of the settings |
| ControllerLaws.StepMoves | desktop-shell/src-tauri/src/controller.rs:1406-1499 | a start ends in `Starting`, a rescue in `Rescuing` stamped now, and `Rescuing` is entered in no other way |
| ControllerLaws.Progress | desktop-shell/src-tauri/src/controller.rs:1092-1119 | on a fresh silent tick outside `Rescuing` something reaches outside the window if and only if the status was not asked for a moment ago about a server of ours that holds the port; and otherwise, short of a proven-free port, it is that question |
| States.StatesStandOnEvidence | desktop-shell/src-tauri/src/controller.rs:1125-1401 | each of the 13 states is entered only on a tick that shows its own evidence, said of the listener, the processes and the health, and `Booting` never |
| States.StateWasEntered | desktop-shell/src-tauri/src/controller.rs:3806-3841 | along every walk the current state is the first one, or was entered on some tick with its evidence and kept since |
| States.HealthyIsAttached | desktop-shell/src-tauri/src/controller.rs:1262-1297 | from every state a healthy server is attached to in one tick, unless My Claude Code is missing, an installer runs or the window must be fetched; the page is reloaded if and only if the dashboard is not up or another process drew it, and attention asked for if and only if the window was interrupted |
| States.WaitIsTimedFromItsStart | desktop-shell/src-tauri/src/controller.rs:1807-1819 | through any chain of waiting states without a start, the time the wait began is kept |
| StatusDocument.OnlyTheOsSaysFree | desktop-shell/src-tauri/src/lib.rs:1834-1875 | the listener is free exactly when the holder is absent, unknown exactly when nobody could tell, and a stranger's pid is never the server's |
| StatusWriter.WindowReadsTheListener | desktop-shell/src-tauri/src/lib.rs:1834-1863 | what the status command writes of a machine, the window reads back: free if and only if no server of ours answered and the port could be bound; held by My Claude Code, under the owner's pid, if and only if one answered or the owner is one; a stranger's if and only if the owner is known and is not; unknown if and only if the lookup failed |
| StatusWriter.WindowReadsTheHolder | src/my_claude_code/cli/desktop.py:365-410 | the holder the window reads is the stage the server answered in, and without an answer the owner's |
| StatusWriter.WindowReadsThePid | desktop-shell/src-tauri/src/lib.rs:1867-1875 | the pid taken for the server's is the owner's when the port is held by My Claude Code, and none otherwise; a document without that key reads the same |
| StatusWriter.FlagTellsAStartFromAFreePort | src/my_claude_code/cli/desktop.py:281-311 | without the flag the port reads as free if and only if no server answered as healthy and one is starting or the port could be bound; and exactly when that differs from asking with it |
| StatusWriter.PresenceReadsAsItsKind | desktop-shell/src-tauri/src/lib.rs:1802-1830 | a document of an older command, without a holder, reads as the one whose holder says the same |
| StatusWriter.UnknownWordsSayNothing | desktop-shell/src-tauri/src/lib.rs:1802-1863 | a kind the window does not know says nothing about the port |
| StatusWriter.SettingsAreKept | desktop-shell/src-tauri/src/lib.rs:1421-1481 | usable settings are read back as they were written, field by field |
| StatusWriter.EachSettingIsReadAlone | desktop-shell/src-tauri/src/lib.rs:1421-1481 | whatever the rest of the document says, each setting is read by its own value when that is usable and by its own default when it is not, or not there |
| RescueReport.OutcomeIsProven | desktop-shell/src-tauri/src/rescue.rs:68-126 | only a readable `port_free` report or a command without rescues licenses a start, and only a readable `refused` one is a refusal; the request survives, its stop wait unless the report names one; every stopped pid is kept, once and in order |
| RescueReport.ReportGrows | desktop-shell/src-tauri/src/rescue.rs:68-126 | one more stopped server adds that server with the way it ended, unless it names no process; one more group left alone adds its pids; and nothing else changes |
| Lifecycle.Lifecycle.PollRescue | desktop-shell/src-tauri/src/lib.rs:1371-1407 | a finished or lost rescue is folded in once and clears the channel |
| Lifecycle.Lifecycle.ListenerFresh | desktop-shell/src-tauri/src/lib.rs:1334-1342 | an OS answer counts as fresh only when newer than the last answered probe and at most two ticks old |
| Lifecycle.Lifecycle.RememberHolder | desktop-shell/src-tauri/src/lib.rs:1620-1625 | the holder's clock restarts only when the holder changes |
| Lifecycle.Lifecycle.Restatus | desktop-shell/src-tauri/src/lib.rs:1633-1702 | what one status read changes, in each of its three outcomes, and nothing else |
| Lifecycle.Lifecycle.Probe | desktop-shell/src-tauri/src/lib.rs:1484-1540 | what one probe changes, with and without a health URL, answered or silent |
| Lifecycle.Lifecycle.Reap | desktop-shell/src-tauri/src/lib.rs:1705-1746 | a child that does not run is let go and a healthy server ends the episode |
| Lifecycle.Lifecycle.Observe | desktop-shell/src-tauri/src/lib.rs:1748-1796 | the observation is exactly what the memory and the world's answers give |
| Lifecycle.Lifecycle.Spawn | desktop-shell/src-tauri/src/lib.rs:2029-2085 | a start forgets every fact about the old server, keeps the last answer's time, and counts |
| Lifecycle.Lifecycle.Apply | desktop-shell/src-tauri/src/lib.rs:1928-2127 | the loop over effects does to the fields what applying them in order does to the memory |
| Lifecycle.Lifecycle.Poll | desktop-shell/src-tauri/src/lib.rs:2166-2180 | the buttons and the mail are taken once, and a tick is fresh for exactly the listed reasons |
| Lifecycle.Lifecycle.Tick | desktop-shell/src-tauri/src/lib.rs:2156-2247 | one pass keeps the object's own run valid, moves its memory as specified, and justifies whatever it did by that run |
| Runs.TickDoes | desktop-shell/src-tauri/src/lib.rs:1926-1928 | applying a whole list of effects changes the memory as its single acting effect does |
| Runs.RunIsTracked | desktop-shell/src-tauri/src/lib.rs:2156-2247 | in every run each of the window's remembered facts -- holder's clock, status document and recheck flag included -- moves by its own law, each observation shows what was remembered, ticks are fresh for the listed reasons and the cadence of the settings, and every act obeys the controller's laws |
| Evidence.ActsOnFreshEvidence | desktop-shell/src-tauri/src/lib.rs:1334-1342 | in every run each rescue, and each start outside `Rescuing`, rests on a document that said nothing listens, read after everything that ever answered and after the last start, at most two ticks old, on a fresh tick without a handshake |
| Licence.StartIsLicensed | desktop-shell/src-tauri/src/controller.rs:1702-1804 | in every run a start in `Rescuing` consumes the report of the most recent rescue, which said free or unsupported; no start or rescue came in between |
| Licence.OneRescueAtATime | desktop-shell/src-tauri/src/controller.rs:1019-1039 | between any two rescues of a run the first reports |
| RescueEnds.RescuingAwaits | desktop-shell/src-tauri/src/controller.rs:1702-1804 | in every run, in `Rescuing` a rescue is in flight or its report is at hand |
| RescueEnds.ReportsAreRead | desktop-shell/src-tauri/src/lib.rs:2176-2180 | in every run a rescue reports on a fresh tick, and a fresh tick with a report at hand leaves `Rescuing` unless it is spent on fetching the pinned window |
| RescueEnds.OneTickFetches | desktop-shell/src-tauri/src/controller.rs:1130-1133 | in every run at most one tick is spent on fetching the pinned window |
| RescueEnds.StartsExactlyWhenLicensed | desktop-shell/src-tauri/src/controller.rs:1733-1770 | in every run a tick in `Rescuing` starts a server if and only if it is fresh, nothing answers, the report licenses a start, no child runs and servers are started here |
| Spacing.StartsAreSpaced | desktop-shell/src-tauri/src/controller.rs:991-1011 | without a "Take port" press, two starts of a run are at least the backoff and the grace apart, by the settings of the tick that decided the later one, even through a rescue |
| Spacing.StartsAreSpacedUnderFixedSettings | desktop-shell/src-tauri/src/controller.rs:1756-1770 | with fixed settings that is one number for the whole run |
| Spacing.RescuesAreSpaced | desktop-shell/src-tauri/src/controller.rs:1019-1039 | any two rescues of a run are at least the backoff and a second apart, by the settings of the later one |
| Cadence.LooksExactlyWhenDue | desktop-shell/src-tauri/src/lib.rs:1243-1261 | in every run a tick samples the world anew if and only if a button, a report or the tick before asks for it, or the interval of its state and settings has passed since the last tick that did |
| Cadence.FirstTickLooks | desktop-shell/src-tauri/src/lib.rs:2156-2200 | the first tick of every run does |
| Children.NeverBoundNamesTheLastStart | desktop-shell/src-tauri/src/controller.rs:955-962 | a never-bound rescue names exactly the child of the last start, running ever since, older than the start budget, while nothing answered and no document saw the port held |
| StartBudget.BudgetIsWhole | desktop-shell/src-tauri/src/controller.rs:923-925 | the code's budget is a timeout for every attempt if and only if the number of retries is not the largest 32-bit one, where it is nothing |
| StartBudget.WholeBudgetIsKeptExactly | desktop-shell/src-tauri/src/controller.rs:939-964 | no never-bound rescue comes before the whole budget, from any state, if and only if the retries are fewer than that, or nothing is started here, or the backoff or the grace is as long |
| StartBudget.RescuedAfterASecond | desktop-shell/src-tauri/src/controller.rs:923-925 | at that value a child one second old is rescued from `Booting` on the first check |
| StartBudget.NeverBoundWaitsTheWholeBudget | desktop-shell/src-tauri/src/controller.rs:955-962 | in every run with fewer retries, the child a never-bound rescue names is older than the whole budget |
| GoneServers.GoneRestsOnALookup | desktop-shell/src-tauri/src/lib.rs:1484-1540 | in every run a process-gone rescue names no process while there is no child, or the one this tick's probe found not running; or, without a health URL, rests on the last such lookup, with no start since |
| GoneServers.NamesWhatItFoundExactly | desktop-shell/src-tauri/src/lib.rs:1484-1499 | this tick's own lookup found the named process dead if and only if there was a health URL to probe, or nothing to name |
| GoneServers.NamesTheLastFoundExactly | desktop-shell/src-tauri/src/lib.rs:1322-1330 | without a health URL, the process last found dead is the one named if and only if it named itself in an answer, or no document was read since, or the newest one names it |
| GoneServers.NamesTheDeadExactly | desktop-shell/src-tauri/src/lib.rs:1322-1330 | in every run a process-gone rescue that names something names the process the last lookup found dead if and only if there was a URL to probe, or that process is still the known one |
| GoneServers.NamesAnotherProcess | desktop-shell/src-tauri/src/lib.rs:1484-1499 | a two-tick run whose rescue names process 8 when the only process ever looked up was 7 |
| HolderClock.StrangersAreConfirmed | desktop-shell/src-tauri/src/lib.rs:1620-1625 | in every run the window enters "the port is a stranger's" only when every classification over the whole foreign grace said so |
| Children.OneServerAtATime | desktop-shell/src-tauri/src/controller.rs:998-1000 | when waiting on the child works, at most one of the window's servers runs, and none on a tick that starts one |
| Children.AliveIsChildOrForgotten | desktop-shell/src-tauri/src/lib.rs:1705-1739 | any running server of the window is its child or one let go by a failed wait |
| TwoServers.TwoRunExactlyWhenOneIsLeftBehind | desktop-shell/src-tauri/src/process.rs:527-545 | two servers of a run can be alive at once if and only if a wait on a running child failed and another was started afterwards; every child a tick reads as running counts |
| ForgottenChild.TwoServersAtOnce | desktop-shell/src-tauri/src/lib.rs:1731-1739 | a four-tick run in which that happens |
| Counters.CountersCount | desktop-shell/src-tauri/src/lib.rs:2034-2050 | `start_attempts` is the number of starts since the last healthy observation, `consecutive_absent` the silent probes since the last answer or start, both up to saturation |
| Counters.SpentStaysSpent | desktop-shell/src-tauri/src/controller.rs:1974-1982 | within an episode, with the same budget, a spent start budget stays spent |
| Walks.Patience | desktop-shell/src-tauri/src/controller.rs:3711-3766 | from any state but `Rescuing`, for any length, observations without a proven-free port start nothing, rescue nothing and never enter `Rescuing` |
| Walks.AtMostThreeInstalls | desktop-shell/src-tauri/src/controller.rs:4244-4272 | from `Booting`, any mix of fresh and paint ticks installs at most three times |
| Walks.InstallsAreVerified | desktop-shell/src-tauri/src/controller.rs:1139-1221 | the status is re-read between any two installs |
| Walks.GivenUpInstallsNothing | desktop-shell/src-tauri/src/controller.rs:1139-1221 | once blocked on installing, nothing is installed again |
| ExactMoment.RescuedExactlyWhenDue | desktop-shell/src-tauri/src/controller.rs:1607-1688 | as long as a server stays dead for one reason, the first rescue falls on exactly the first tick that is fresh and due: for a lost listener at least `health_failure_threshold` checks, and one, over that number times the tick, never under a second, since the first check; for a child that never opened its port as many checks, the watched span and the child's age; for a gone process at once -- for all settings and spacings |
| ExactMoment.DeadIsDecided | desktop-shell/src-tauri/src/controller.rs:866-912 | with nothing in the way, the verdict is dead for a reason if and only if the OS answer and the known processes show that reason, and a rescue may be asked for on every fresh tick |
| DeadRuns.DeadRunIsRescuedExactlyWhenDue | desktop-shell/src-tauri/src/lib.rs:2156-2247 | in every run of the whole window, for each way of being dead: as long as documents with the same settings keep saying free, nothing answers, what the window knows of the processes lasts, and fresh ticks come within twice the tick, the first rescue falls on exactly the first due tick |
| Confirmation.ConfirmingIsHistory | desktop-shell/src-tauri/src/controller.rs:1607-1640 | `Confirming{reason, first, checks}` means an unbroken series of agreeing checks that began at `first` and that `checks` counts |
| Confirmation.RescueIsWellConfirmed | desktop-shell/src-tauri/src/controller.rs:939-964 | behind every rescue of a walk there is an unbroken series of agreeing checks whose number and span reach the numbers of the settings for its reason |
| RunWalks.RunRescuesAreConfirmed | desktop-shell/src-tauri/src/controller.rs:939-964 | the same for every rescue of every run of the whole window |
| RunWalks.RunStartsExactlyWhen | desktop-shell/src-tauri/src/controller.rs:991-1011 | in every run a tick outside `Rescuing` starts a server if and only if one may be started on what it observed |
| RunWalks.RunRescuesExactlyWhen | desktop-shell/src-tauri/src/controller.rs:1019-1039 | in every run a tick rescues if and only if a dead server may be rescued on what it observed and counted |
| RunWalks.RunFollowsTheTables | desktop-shell/src-tauri/src/controller.rs:1125-1401 | every tick of a run leads where the one table says and shows what the other says |
| RunWalks.RunStatesStandOnEvidence | desktop-shell/src-tauri/src/controller.rs:1125-1401 | the same of every state a run enters as of every state a step enters |
| Text.LossySplitsAtNewline | desktop-shell/src-tauri/src/health.rs:251-252 | lossy UTF-8 decoding never looks past a line feed |
| TextLaws.LossyOfEncoded | desktop-shell/src-tauri/src/health.rs:251-252 | decoding undoes the encoding of section 3 of RFC 3629, for every text and whatever follows it |
| TextLaws.FirstIsItsEncoding | desktop-shell/src-tauri/src/health.rs:251-252 | bytes start with a character if and only if they start with its own encoding, and nothing else is read as one |
| TextLaws.ReplacedIsTheLongestBeginning | desktop-shell/src-tauri/src/health.rs:251-252 | where no character starts, one replacement stands for the longest beginning of one and never for more |
| TextLaws.ParsedExactly | desktop-shell/src-tauri/src/health.rs:331-340 | a text is read as a number if and only if it is its decimal, after any zeros and at most one plus, and not too large |
| TextLaws.TrimIs | desktop-shell/src-tauri/src/health.rs:321-328 | whatever blanks are written around it, the bare text between them is found |
| HealthProbe.HeaderPid | desktop-shell/src-tauri/src/health.rs:262-273 | the loop finds the pid of the last `x-mcc-pid` line, even when its value is no pid; without such a line there is none |
| PidLaws.PidIsRead | desktop-shell/src-tauri/src/health.rs:262-273 | every well-formed head names a pid if and only if the bare value of its last `x-mcc-pid` field, in any case and between any blanks, spells a positive 64-bit number, and then that one |
| PidLaws.UsualPid | desktop-shell/src-tauri/src/health.rs:262-273 | `x-mcc-pid: ` and the decimal of any such pid, under any first line, is read as it |
| HealthProbe.ReadHead | desktop-shell/src-tauri/src/health.rs:227-253 | the in-place read loop ends, holding what reading the chunks one by one holds, and concludes accordingly; nothing read is no answer |
| ChunkingLaws.HeldIsAStart | desktop-shell/src-tauri/src/health.rs:227-253 | whatever the chunks, what is held is all of the 2048-byte window or a start of it with a complete head |
| ChunkingLaws.StatusIgnoresChunking | desktop-shell/src-tauri/src/health.rs:331-340 | two deliveries of one stream read the same status code, so the server is as healthy, silent or unreadable |
| ChunkingLaws.EndOfHeadIsFirst | desktop-shell/src-tauri/src/health.rs:275-280 | the earliest place reading may stop |
| HeadLaws.CompleteExactly | desktop-shell/src-tauri/src/health.rs:275-280 | a head is complete if and only if CRLF CRLF or LF LF stands somewhere in its bytes |
| BodyLaws.DeliveryMattersOnlyWhenUnsettled | desktop-shell/src-tauri/src/health.rs:300-318 | all deliveries of a stream have one outcome if and only if the status is not 503, or the head itself says shutting down, or no start of the body sets a marker that would change it |
| PidLaws.DeliveryMattersToThePidOnlyWhenUnsettled | desktop-shell/src-tauri/src/health.rs:227-273 | all deliveries of a stream name one pid if and only if no start of the body in the window names another than the head |
| PidLaws.HealthyAnswer | desktop-shell/src-tauri/src/health.rs:262-273 | one healthy answer, two deliveries: one names pid 7, the other none |
| HeadLaws.FieldOrderIsIrrelevant | desktop-shell/src-tauri/src/health.rs:321-328 | reordering header lines never changes the outcome |
| HeadLaws.HeadIsRead | desktop-shell/src-tauri/src/health.rs:300-340 | every well-formed head, as sections 2.2 and 4 of RFC 9112 and section 5 of RFC 9110 let one be written, is read back as meant: any 2xx healthy, shutdown before starting -- whatever the blanks around names and values, the case of the names, the line endings and the spelling of the code |
| HeadLaws.OtherwiseUnreadable | desktop-shell/src-tauri/src/health.rs:331-340 | one of another protocol, or whose code spells no number up to 65535, is unreadable |
| HeadLaws.UsualMarkers | desktop-shell/src-tauri/src/health.rs:300-328 | a 503 with `x-mcc-shutdown: 1` is shutting down and one with `x-mcc-starting: 1` is starting, under any first line |
| HeadLaws.BusyAnswer | desktop-shell/src-tauri/src/health.rs:227-253 | one answer, two deliveries, two outcomes |
| Notify.XmlEscape | desktop-shell/src-tauri/src/notify.rs:170-183 | the character loop computes the escaping |
| Notify.EscapingIsUndone | desktop-shell/src-tauri/src/notify.rs:170-183 | reading the predefined entities of sections 2.4 and 4.6 of XML 1.0 undoes the escaping of every string |
| Notify.EscapedIsClean | desktop-shell/src-tauri/src/notify.rs:170-183 | escaped text has no angle bracket and no quote, and every ampersand begins a predefined entity |
| Notify.ToastIsRead | desktop-shell/src-tauri/src/notify.rs:187-194 | a toast document reads back as the title and the body it was made from |
| Notify.ToastIsInjective | desktop-shell/src-tauri/src/notify.rs:187-194 | different titles or bodies never make the same document |
| ContentBlocks.AssistantContentFromEvents | smoke/lib/e2e.py:670-710 | the two loops over one object per index build the message of the events, listing a block that started twice twice; what that message holds is `MessageLaws.MessageIsMeant`, and when there is none `MessageLaws.FailsExactlyWhen` |
| MessageLaws.MessageIsMeant | smoke/lib/e2e.py:670-710 | over the events themselves: one block for each start, in order; under every key just what its block last started with, its text and thinking summed up since, and for a tool call no collected JSON but as its input the value that JSON decodes to, an empty object when it decodes to none, and what it started with when none was collected |
| MessageLaws.FailsExactlyWhen | smoke/lib/e2e.py:670-681 | assembling fails if and only if a start or a delta names no index |
| ContentLaws.BuiltIsSaid | smoke/lib/e2e.py:670-697 | a built block is its last start with what each channel adds up to since, and the order is that of the starts |
| ContentLaws.OnlyStartsAndSums | smoke/lib/e2e.py:670-710 | the same starts in order and the same sums make the same message |
| ContentLaws.InterleavingIsIrrelevant | smoke/lib/e2e.py:670-710 | when each block starts once before its deltas, the message depends only on the order of starts and on each block's deltas run together |
| ContentLaws.SplitDelta | smoke/lib/e2e.py:681-697 | a delta cut in two, wherever it stands, changes nothing |
| ContentLaws.SwapDeltas | smoke/lib/e2e.py:681-697 | neighbouring deltas of different blocks or channels may change places |
| PendingVoice.FakePlatform.SeedPendingVoice | smoke/lib/e2e.py:428-439 | a seed puts one note under its two keys and touches no other entry |
| PendingVoice.FakePlatform.CancelPendingVoice | smoke/lib/e2e.py:441-462 | an unknown id changes nothing; otherwise the note's keys go, and a reply to the status asks to delete only that message |
| PendingVoice.FakePlatform.CancelAllPendingVoices | smoke/lib/e2e.py:464-474 | the index is emptied, and the notes come back in order, one for each head |
| PendingVoice.FakePlatform.CancelPendingVoicesInScope | smoke/lib/e2e.py:476-491 | the notes of one scope come back in order and their keys are removed |
| PendingVoiceLaws.SeedKeepsExactly | smoke/lib/e2e.py:428-439 | a seed keeps every note at exactly two keys if and only if its ids differ and are both unused or both those of one note |
| PendingVoiceLaws.OneIdBreaks | smoke/lib/e2e.py:428-439 | seeding an empty index with one id for both breaks it |
| PendingVoiceLaws.ReusedIdBreaks | smoke/lib/e2e.py:428-439 | so does a note that takes over one id of another |
| PendingVoiceLaws.CancelTakesThePair | smoke/lib/e2e.py:441-462 | cancelling by either key removes exactly the note's two keys |
| PendingVoiceLaws.CancelLowersTheCount | smoke/lib/e2e.py:441-462 | it keeps the index consistent and lowers the count by one |
| PendingVoiceLaws.CancelUndoesSeed | smoke/lib/e2e.py:428-462 | a cancel right after a seed with unused ids restores the index, and such a seed adds one to the count |
| PendingVoice.FakePlatform.PendingVoiceCount | smoke/lib/e2e.py:493-500 | the count is half the number of keys, as long as every note has its two |
| PendingVoiceLaws.CountIsHalf | smoke/lib/e2e.py:493-500 | the number of heads is half the number of keys of a consistent index |
| PendingVoiceLaws.HarvestIsExact | smoke/lib/e2e.py:464-491 | a global or scope-wide cancel returns each note concerned exactly once, and no other |
| PendingVoiceLaws.ScopeIsEmptied | smoke/lib/e2e.py:476-491 | a scope-wide cancel removes that scope and leaves every other untouched |
| PendingOrder.SeedComesLast | smoke/lib/e2e.py:428-439 | a note seeded under unused ids comes after every other |
| PendingOrder.CancelKeepsOrder | smoke/lib/e2e.py:441-462 | a cancel moves no other key |
| PendingOrder.HarvestIsInOrder | smoke/lib/e2e.py:464-491 | the notes a cancel returns come in the order of their first keys |
| PendingVoiceLaws.AnyHistoryIsConsistent | smoke/lib/e2e.py:428-500 | after any series of proper seeds and cancels every note has exactly two keys |

## Where the other functions come from

The functions the members above speak about, and the code each one follows.

| functions | source |
|---|---|
| `Controller.Decide`, `StartBudgetSeconds`, `DeadIsConfirmed` | `desktop-shell/src-tauri/src/controller.rs:866-964` |
| `Controller.MayStart`, `MayRescue`, `EnvironmentMayBeReplaced`, `ForeignConfirmed` | `desktop-shell/src-tauri/src/controller.rs:991-1071` |
| `Controller.NeedsRestatus`, `SlowRestatusDue`, `StartBudgetSpent`, `KeepAsking` | `desktop-shell/src-tauri/src/controller.rs:1092-1119`, `1854-1860`, `1974-1982` |
| `Controller.Step`, `StepMissing`, `StepHealthy`, `StepUnhealthy` | `desktop-shell/src-tauri/src/controller.rs:1125-1401` |
| `Controller.StepAbsent`, `StepFree`, `StepDead`, `StepRescuing` | `desktop-shell/src-tauri/src/controller.rs:1406-1804` |
| `Controller.Since`, `AttemptsOf`, `InstallAttemptsOf` | `desktop-shell/src-tauri/src/controller.rs:1807-1841` |
| `StatusWriter.Presence`, `PortHolder`, `ServerPidOf`, `Written` | `src/my_claude_code/cli/desktop.py:281-438`, `src/my_claude_code/cli/desktop_status.py:236-346` |
| `StatusDocument.HolderFrom`, `ListenerFrom`, `StatusServerPid`, `FactsOf` | `desktop-shell/src-tauri/src/lib.rs:1421-1481`, `1802-1875` |
| `RescueReport.OutcomeOf` | `desktop-shell/src-tauri/src/rescue.rs:68-126` |
| `Sampler.TickSeconds`, `ListenerFresh`, `PollRescue`, `Probe`, `RememberHolder`, `ReadStatus`, `Reap`, `Observed` | `desktop-shell/src-tauri/src/lib.rs:1243-1796` |
| `Sampler.ApplySpawn`, `ApplyRescue`, `ApplyRestatus`, `ApplyEnsureShell`, `Apply` | `desktop-shell/src-tauri/src/lib.rs:1928-2127` |
| `Sampler.TakePort`, `FreshTick`, `BootRead`, `Settle`, `Tick` | `desktop-shell/src-tauri/src/lib.rs:2156-2247` |
| `HealthProbe.HeadIsComplete`, `CodeOfLine`, `StatusCode`, `ValueIn`, `HeadCarriesMarker`, `OutcomeFromHead`, `PidOfValue` | `desktop-shell/src-tauri/src/health.rs:262-340` |
| `Notify.EscapedChar`, `ToastXml` | `desktop-shell/src-tauri/src/notify.rs:170-194` |
| `ContentBlocks.PieceOf`, `Added`, `Finished` | `smoke/lib/e2e.py:670-710` |
| `PendingIndex.Seeded`, `Cancelled`, `Collected`, `PoppedAll`, `Heads` | `smoke/lib/e2e.py:428-500` |

## Left out

- The window, the tray, page wording and banners: only which page constructor is shown is kept.
- Sockets, process spawning, `--print-status`, the rescue process, the installer and log files: the world answers for them on every tick.
- JSON encoding and decoding of status documents and rescue reports: the decoded record, or "unreadable", is the input.
- The status command's own probe, bind tests and process lookups: their answers are the `Machine` it describes, and whether a process is My Claude Code's is one of them.
- Which process the dashboard on screen belongs to (`dashboard_pid`) and whether the dashboard is on screen: inputs of a tick; they only decide whether attaching navigates.
- The once-only flags behind `AnnounceDead` and `RaiseOnce`, the probe timeout ladder, the busy header, the child's last words and the update's narration: they never reach a decision.
- The fields of the window's memory are grouped into records, and the loop's several clock reads inside one observation are one.
- The step functions build a local list of effects; the model builds the same list as a value.
- Seconds are real numbers: rounding, infinities and not-a-number are not modelled.
- `from_utf8_lossy`, `lines`, `trim`, `split_whitespace` and number parsing are written out from the standard library's documentation; the library's code is not part of this model.
- Children.OneServerAtATime: speaks of runs in which waiting on the child never fails; `TwoServers.TwoRunExactlyWhenOneIsLeftBehind` covers all runs.
- ContentBlocks.AssistantContentFromEvents: `json.loads` is a parameter that gives a value or none, and a value that is not a string carries the text `str` gives for it.
- Message deletion, replies and the rest of the fake platform: input and output around the index.
- `activation.rs`, `install.rs`, `swap.rs`, `ui.rs`, `update_progress.rs` and `window_state.rs`, apart from what they answer the loop.
