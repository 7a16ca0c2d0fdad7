# abricot dispatch bookkeeping, in Dafny

abricot runs one job on many machines through a pub/sub broker. A **master**:

- registers a job;
- checks that enough **slaves** listen on the job's tag;
- subscribes to the job's progress channel;
- once subscribed, publishes the job's payload on the tag's control channel.

Each slave takes a worker slot from a per-job counter. When the slot is below the requested worker count, it starts a runner. A runner reports `start`, then `done` with the exit status (and the output, on failure). The master updates the job from these reports, draws a progress line per job, and drops finished jobs from the front of its registry.

Jobs can be grouped (`Multi`). A group's `wait` stops as soon as a member failed or was killed, or when all have finished. On a failure it kills every unfinished member and raises the failure of the last failed member.

The model has seven modules:

- `Wire`: channel names, counter keys, the messages and a publication.
- `Bus`: the broker as a log of publications, a counter map and the master's subscriptions.
- `Tags`: Ruby's `split(',')` and the channels a slave listens on.
- `Script`: `String#lines`, the default `#!/bin/bash` line and the dispatch payload.
- `Progress`: the job state machine as pure functions, the worker-count check, the progress line, and `wait` for one job and for a group.
- `SlaveNode`: the slave's runner table, slot admission and `done` reports.
- `MasterNode`: the classes `Job`, `Multi` and `Master`. Their methods update fields exactly as the `Progress` functions say.

The model keeps these behaviours of the code:

- Only a `failed` job ignores later `done` reports; a `killed` job can still succeed or fail (`Progress.KilledJobCanStillChange`).
- `failed?` holds for killed jobs, so waiting on a killed job raises (`Progress.WaitOnKilledRaises`).
- A group raises the failure of the *last* failed member in list order, not the first (`Progress.LastFailed`).
- Reaching `failed` kills no other job by itself; only a group's `wait` does.
- Interior line breaks of a script that gets the default interpreter line are doubled. `String#lines` keeps each line's newline, and the lines are then joined with another one (`Script.ScriptTextDoublesInnerBreaks`).

## Model

| member | source | states |
|---|---|---|
| Wire.JobIdOfChannel | lib/abricot/master.rb:62-64 | the id taken from a progress channel names that channel back; no id is returned for a channel that is no job's progress channel |
| Wire.ProgressChannelRoundTrip | lib/abricot/master.rb:62-64 | the progress channel of any id parses back to that id |
| Wire.DummyChannelNamesNoJob | lib/abricot/master.rb:67 | the listener's `abricot:job:dummy` channel belongs to no job |
| Wire.KillPublications | lib/abricot/master.rb:319 | one fleet-wide kill order per id, in the same order |
| Bus.Broker.Publish | lib/abricot/master.rb:246 | a publication is appended to the broker's log |
| Bus.Broker.Incr | lib/abricot/slave.rb:50 | `INCR` returns the previous value (0 when absent) plus one and stores it |
| Bus.Broker.Set | lib/abricot/master.rb:244 | `SET` stores the value under the key |
| Bus.Broker.Subscribe | lib/abricot/master.rb:294 | the channel joins the master's subscriptions |
| Bus.Broker.Unsubscribe | lib/abricot/master.rb:262 | the channel leaves the master's subscriptions |
| Tags.Fields | lib/abricot/slave.rb:14 | splitting on commas gives at least one field |
| Tags.FieldsHaveNoComma | lib/abricot/slave.rb:14 | no field contains a comma |
| Tags.FieldsJoinRoundTrip | lib/abricot/slave.rb:14 | joining the fields with commas gives back the string |
| Tags.DropTrailingEmpty | lib/abricot/slave.rb:14 | `split` drops exactly the trailing empty fields and keeps the prefix before them |
| Tags.SplitPlainTag | lib/abricot/slave.rb:14 | a non-empty tag without a comma splits to itself alone |
| Tags.SplitEmpty | lib/abricot/slave.rb:14 | a slave given no tags has no tag of its own |
| Tags.SplitTags | lib/abricot/slave.rb:14 | every tag a slave keeps is free of commas, and the list never ends with an empty tag |
| Tags.ListenChannels | lib/abricot/slave.rb:20 | one control channel per tag, in order, then the `_all_` channel |
| Tags.ListensOn | lib/abricot/slave.rb:20 | a slave hears a tag's control channel exactly when it has that tag or the tag is `_all_` |
| Tags.SingleTagReachesSlave | lib/abricot/slave.rb:14-20 | a job sent to tag `t` reaches a slave started with tags `t` |
| Script.FirstLineLength | lib/abricot/master.rb:227 | the first line is non-empty, has no newline before its end, and ends with one unless it is the whole text |
| Script.Lines | lib/abricot/master.rb:227 | a text has no lines exactly when it is empty |
| Script.ConcatLines | lib/abricot/master.rb:227 | the lines of a non-empty text are its first line followed by the lines of the rest |
| Script.LinesRoundTrip | lib/abricot/master.rb:227 | the lines of a text put back together are the text |
| Script.LinesShape | lib/abricot/master.rb:227 | no line is empty, every line but the last ends with a newline, and no line has another newline |
| Script.FirstLineShebang | lib/abricot/master.rb:228 | the first line starts with `#!` exactly when the text does |
| Script.ScriptText | lib/abricot/master.rb:226-231 | every script sent starts with `#!`; a script that already does is sent unchanged; any other is sent with `#!/bin/bash` in front |
| Script.ScriptTextOneLine | lib/abricot/master.rb:228-231 | a one-line script `s` without `#!` is sent as `#!/bin/bash` + newline + `s` |
| Script.ScriptTextEmpty | lib/abricot/master.rb:228-231 | an empty script is sent as the interpreter line alone |
| Script.ScriptTextDoublesInnerBreaks | lib/abricot/master.rb:227-230 | a script given the interpreter line has each of its inner line breaks doubled |
| Script.JoinLinesDoubles | lib/abricot/master.rb:230 | joining a text's lines with newlines doubles every newline except a final one |
| Script.JoinLinesStep | lib/abricot/master.rb:230 | joining the lines of a text with more than one line doubles the first line's break and then the rest's inner breaks |
| Script.SplitAtBreak | lib/abricot/master.rb:227 | a first line ending in a newline is its text plus that newline, and the whole text is that line plus the rest |
| Script.JobPayload | lib/abricot/master.rb:221-240 | the payload always carries the id and the worker count; an exec payload with the arguments when there is no script; otherwise a script payload that starts with `#!` and is the script itself when that already does |
| Progress.FinishedAndFailed | lib/abricot/master.rb:298-304 | a job is unfinished exactly when idle, started or running; `failed?` implies `finished?`; finished without failing means success |
| Progress.OnStart | lib/abricot/master.rb:253-258 | a `start` counts one more started worker; an idle job becomes started, and a started job becomes running when the count reaches the worker count; any other status is kept |
| Progress.OnDone | lib/abricot/master.rb:259-272 | a failed job ignores `done`; a non-zero status fails the job with the reported output; a zero status counts one completion and succeeds exactly when the count reaches the worker count |
| Progress.OnReport | lib/abricot/master.rb:250-275 | a report never lowers the counts, never takes a finished job back to unfinished, and leaves a failed job failed with its output |
| Progress.AfterKill | lib/abricot/master.rb:316-323 | a finished job is left alone; any other becomes killed with output "Job killed" |
| Progress.KillIsIdempotent | lib/abricot/master.rb:316-323 | a second kill changes nothing and publishes nothing, and a killed job is finished |
| Progress.AfterKills | lib/abricot/master.rb:166 | a kill applied to each of several jobs |
| Progress.StartsAreCounted | lib/abricot/master.rb:255 | `num_started` counts every `start` report, whatever the status |
| Progress.FinishedIsStable | lib/abricot/master.rb:250-275 | no report or kill takes a successful, failed or killed job back to an unfinished status |
| Progress.FailedIsAbsorbing | lib/abricot/master.rb:260 | once failed, only the started count moves; status, output and completed count never change |
| Progress.KilledJobCanStillChange | lib/abricot/master.rb:260 | a killed job still succeeds on its last completion, or fails on a non-zero status |
| Progress.Starts | lib/abricot/master.rb:253 | a run of `n` start reports |
| Progress.Completions | lib/abricot/master.rb:265 | a run of `n` zero-status done reports |
| Progress.StartsReachRunning | lib/abricot/master.rb:253-258 | starts move an idle job to started and then to running from the k-th start on; one worker goes from idle to running on one report |
| Progress.RunningIgnoresStarts | lib/abricot/master.rb:256-257 | further starts leave a running job running |
| Progress.CompletionsReachSuccess | lib/abricot/master.rb:265-270 | each completion counts once, the output is kept, and the job succeeds exactly when the count reaches k |
| Progress.ResolveNumWorkers | lib/abricot/master.rb:277-290 | a request above the available count fails; no request with nothing available fails; otherwise the request is kept, or the available count (at least 1) is taken |
| Progress.ResolveTag | lib/abricot/master.rb:211-215 | the tag is `_all_` by default and is refused exactly when it contains a comma |
| Progress.JobName | lib/abricot/master.rb:207-209 | the given name, or "Job " followed by the id |
| Progress.StatusLabel | lib/abricot/master.rb:94-101 | an idle job has an empty label; a job is finished exactly when its label is `done`, `FAILED` or `KILLED` |
| Progress.LabelDeterminesStatus | lib/abricot/master.rb:94-101 | the progress label tells the statuses apart |
| Progress.ProgressLine | lib/abricot/master.rb:93-101 | a started job shows started/total workers, a running one completed/total, others no fraction; the word is the status label |
| Progress.JobWait | lib/abricot/master.rb:310-314 | blocked until finished; raises with the output exactly when `failed?`, killed included; returns exactly on success |
| Progress.WaitOnKilledRaises | lib/abricot/master.rb:313 | waiting on a job that a kill just stopped raises with "Job killed" |
| Progress.LastFailed | lib/abricot/master.rb:160-161 | the scan finds a failed or killed member with none after it, or reports that there is none |
| Progress.StatusesOf | lib/abricot/master.rb:160-162 | the members' statuses, in order |
| Progress.GroupWait | lib/abricot/master.rb:157-174 | blocked exactly while no member failed and some are unfinished; raises the last failed member's output exactly when some member failed; a plain return means every member succeeded |
| Progress.ProceedWithoutFailureMeansSuccess | lib/abricot/master.rb:162-169 | a group that proceeds without a failure had every member succeed |
| Progress.SingleFailureIsReported | lib/abricot/master.rb:160-161 | with a single failed member, that member is the one reported |
| SlaveNode.Admitted | lib/abricot/slave.rb:52 | a dispatch without a worker count admits no runner; an admitted slot index is below the worker count |
| SlaveNode.AdmittedBelow | lib/abricot/slave.rb:50-55 | a smaller slot index of the same job is admitted too |
| SlaveNode.Concerns | lib/abricot/slave.rb:42-44 | an untagged message concerns every slave; a slave without tags ignores tagged ones; an empty tag list concerns nobody; a shared tag always concerns the slave |
| SlaveNode.AdmittedIndicesAreConsecutive | lib/abricot/slave.rb:50-55 | from counter c, n dispatches for k workers admit indices c, c+1, … and min(n, k - c) of them |
| SlaveNode.AdmittedIndicesSnoc | lib/abricot/slave.rb:50-55 | one more dispatch adds its slot at the end of the admitted slots exactly when that slot is admitted |
| SlaveNode.AdmissionFromZero | lib/abricot/slave.rb:50-55 | from a fresh counter, n dispatches admit exactly min(n, k) runners with indices 0 … min(n, k) - 1 |
| SlaveNode.QuorumFillsEverySlot | lib/abricot/slave.rb:50-55 | a job that passed the worker check, sent to the counted slaves, has each of its k slots taken once |
| SlaveNode.DonePayload | lib/abricot/slave.rb:101-103 | a `done` report carries the exit status, and the output exactly when the status is non-zero |
| SlaveNode.DoneReportReachesJob | lib/abricot/slave.rb:104 | a runner's report reaches the job its channel names; a failure fails it with the runner's output, a success counts one completion |
| SlaveNode.Slave.constructor | lib/abricot/slave.rb:10-15 | a new slave has the comma-split tags and no runners |
| SlaveNode.Slave.Channels | lib/abricot/slave.rb:20 | the slave listens on the control channel of each of its tags and of `_all_`, and no other |
| SlaveNode.Slave.KillJob | lib/abricot/slave.rb:63-67 | only the runner of that id is forgotten; nothing happens when there is none |
| SlaveNode.Slave.KillAllJobs | lib/abricot/slave.rb:59-61 | every runner is forgotten |
| SlaveNode.Slave.ProcessMessage | lib/abricot/slave.rb:40-57 | a message for other tags changes nothing; `killall` empties the table; `kill` forgets one id; a dispatch increments the job's counter and, when the old value is below the worker count, replaces the job's runner by one with that index |
| SlaveNode.AfterDispatch | lib/abricot/slave.rb:50-55 | an admitted dispatch adds or replaces only the job's runner, with the slot it took; a refused one changes no runner |
| SlaveNode.DispatchToSlaves | lib/abricot/slave.rb:46-55 | one dispatch delivered through `process_message` to each concerned slave in turn: slave i takes slot c + i, the counter ends at c plus the number of slaves, each slave's runners change as `AfterDispatch` says, and the slots admitted are exactly `AdmittedIndices` |
| SlaveNode.Slave.ReportStart | lib/abricot/slave.rb:76 | a runner publishes `start` on its job's progress channel |
| SlaveNode.Slave.ReportDone | lib/abricot/slave.rb:94-106 | without an exit status nothing is published or forgotten; otherwise `done` is published and the runner forgets itself |
| MasterNode.RemoveAll | lib/abricot/master.rb:181 | the deleted handle is gone and nothing is added |
| MasterNode.RemoveAllKeepsOthers | lib/abricot/master.rb:181 | deleting a handle keeps exactly the other handles |
| MasterNode.RemoveAppended | lib/abricot/master.rb:181 | adding a new handle and deleting it gives back the list |
| MasterNode.RemoveAbsent | lib/abricot/master.rb:181 | deleting a handle that is not there changes nothing |
| MasterNode.RemoveAllIdempotent | lib/abricot/master.rb:181 | deleting twice is deleting once |
| MasterNode.Job.constructor | lib/abricot/master.rb:190-201 | a new job is idle with zero counts, keeps its options, takes the given id or the generated one, and signals only itself |
| MasterNode.Job.Finished | lib/abricot/master.rb:298-300 | a failed or killed job is finished, and a finished job that did not fail succeeded |
| MasterNode.Job.Name | lib/abricot/master.rb:207-209 | the job's given name, or "Job " followed by its id when it has none |
| MasterNode.Job.Tag | lib/abricot/master.rb:211-215 | the tag is accepted exactly when it has no comma, and is then the given tag or `_all_` |
| MasterNode.Job.Payload | lib/abricot/master.rb:221-240 | a dispatch order with the job's id and worker count; a script payload starts with `#!`; without a file or `cmd` the payload is the arguments |
| MasterNode.Job.CheckForEnoughWorkers | lib/abricot/master.rb:277-290 | a bad tag or too few workers refuses the job and leaves the worker count alone; a pass fixes the worker count as resolved |
| MasterNode.Job.AsyncExec | lib/abricot/master.rb:292-296 | the job passes exactly when its tag and worker check do; only then is its progress channel subscribed, and a refused job leaves the bus alone |
| MasterNode.Job.OnProgressSubscribe | lib/abricot/master.rb:242-248 | with a valid tag the job's counter is reset to 0 and its payload is published on the tag's control channel; a bad tag sends nothing |
| MasterNode.Job.OnProgressMessage | lib/abricot/master.rb:250-275 | the state moves as `start`/`done` say, and the progress channel is dropped exactly when the job fails or its last worker completes |
| MasterNode.Job.Kill | lib/abricot/master.rb:316-327 | a finished job is untouched and nothing is published; otherwise one kill order is published, the job is killed and the display redrawn, leaving the registry cleaned with one printed line per job; the registry only loses jobs from its front, and only finished ones |
| MasterNode.States | lib/abricot/master.rb:157-174 | the jobs' states, in order |
| MasterNode.Ids | lib/abricot/master.rb:319 | the jobs' ids, in order |
| MasterNode.PendingKills | lib/abricot/master.rb:176-178 | a kill round publishes for at most every job |
| MasterNode.PendingKillsAreUnfinished | lib/abricot/master.rb:317-319 | a kill round publishes for exactly the jobs not yet finished |
| MasterNode.PendingKillsStep | lib/abricot/master.rb:177 | one more job in the round adds its order exactly when it was unfinished |
| MasterNode.KillPublicationsSnoc | lib/abricot/master.rb:319 | one more id adds its kill order at the end |
| MasterNode.KillRoundStep | lib/abricot/master.rb:177 | the log after the i-th kill is the log of the round so far plus that kill's order |
| MasterNode.SecondRoundPublishesNothing | lib/abricot/master.rb:54-56 | a second round of kills publishes nothing |
| MasterNode.KilledAll | lib/abricot/master.rb:176-178 | once a kill round has reached every member, each member's state is its state after a kill |
| MasterNode.LeadingFinished | lib/abricot/master.rb:111-121 | the jobs before the count are finished and the one at the count is not |
| MasterNode.Display | lib/abricot/master.rb:93-104 | one progress line per registered job, in registry order |
| MasterNode.Multi.constructor | lib/abricot/master.rb:146-150 | a new group of this master with no members and its own signal |
| MasterNode.Multi.AddJob | lib/abricot/master.rb:152-155 | the job gains the group's signal and joins the group at the end |
| MasterNode.Multi.Finalize | lib/abricot/master.rb:180-182 | every member stops signalling the group; no state or worker count changes |
| MasterNode.Multi.LastFailedJob | lib/abricot/master.rb:160-161 | the loop finds the last failed or killed member |
| MasterNode.Multi.KillJobs | lib/abricot/master.rb:176-178 | every member is killed as `AfterKill` says, with one kill order per unfinished member, in list order |
| MasterNode.Multi.FailFast | lib/abricot/master.rb:165-166 | the unfinished members are killed; the failed member is untouched and its output is raised (the raise of line 173; the redraw of line 171 between them is `Multi.Wait`'s) |
| MasterNode.Multi.Wait | lib/abricot/master.rb:157-174 | the outcome is `GroupWait` of the members' states; only on a raise are members killed and kill orders sent; the registry only loses jobs from its front; unless still blocked, it ends cleaned with one printed line per job |
| MasterNode.Multi.Redraw | lib/abricot/master.rb:171 | the final redraw changes no member, leaves the registry cleaned with one printed line per job, and only drops finished jobs from its front |
| MasterNode.DropIsSuffix | lib/abricot/master.rb:111-121 | dropping jobs from the front of the registry leaves a suffix of it |
| MasterNode.DropFinished | lib/abricot/master.rb:111-121 | dropping finished jobs from the front of the registry drops only finished jobs |
| MasterNode.IsSuffixTransitive | lib/abricot/master.rb:111-121 | dropping from the front twice is dropping from the front |
| MasterNode.RegistrySuffix | lib/abricot/master.rb:111-121 | dropping jobs from the front keeps ids distinct and jobs owned by the master |
| MasterNode.IndexOfId | lib/abricot/master.rb:28 | the position of the job with that id, or that there is none |
| MasterNode.Master.constructor | lib/abricot/master.rb:10-18 | an empty registry, no open group, nothing printed |
| MasterNode.Master.JobFromChannel | lib/abricot/master.rb:62-64 | the registered job whose progress channel it is, or none when no registered job owns the channel |
| MasterNode.Master.Register | lib/abricot/master.rb:28 | a new id goes last; a known id's job is replaced in place; ids stay distinct |
| MasterNode.Master.CleanupJobs | lib/abricot/master.rb:111-121 | exactly the finished jobs at the front are dropped, the rest keep their order, every job dropped is finished, and the printed-line count drops by one per job dropped |
| MasterNode.Master.RedrawProgress | lib/abricot/master.rb:87-109 | one line per job before cleanup; the printed-line count is the registry size after cleanup; exactly the leading finished jobs are dropped, so the registry is cleaned and every job dropped is finished |
| MasterNode.Master.AsyncExec | lib/abricot/master.rb:24-32 | the job is registered before its check, so a refused job stays registered; it passes exactly when its tag and worker check do; on a pass its worker count is the resolved one, its progress channel is subscribed, and it joins the open group and signals it; on a refusal the worker count, the subscriptions, the group and the signals stay as they were |
| MasterNode.Master.BeginGroup | lib/abricot/master.rb:39-42 | a new empty group of this master is open |
| MasterNode.Master.EndGroup | lib/abricot/master.rb:43-44 | no group is open |
| MasterNode.Master.OnSubscribed | lib/abricot/master.rb:68-73 | a job's progress channel makes that job reset its slot counter to 0 and publish its payload, when its tag is valid; a bad tag or any other channel changes neither the counters nor the log; after the redraw the registry is cleaned with one printed line per job and has lost only finished jobs from its front |
| MasterNode.Master.StartDispatch | lib/abricot/master.rb:70-71 | the job owning the channel, if any, resets its counter and publishes its payload exactly when its tag is valid |
| MasterNode.Master.RedrawRegistry | lib/abricot/master.rb:72 | the redraw keeps the registry well formed, leaves it cleaned with one printed line per job, and only drops finished jobs from its front |
| MasterNode.Master.OnMessage | lib/abricot/master.rb:75-79 | the report goes to the job the channel names and changes its state as `OnReport` says; every other job keeps its state; that job's progress channel is dropped exactly when the report closes it; an unrouted report changes no state and no subscription; after the redraw the registry is cleaned with one printed line per job and has lost only finished jobs from its front |
| MasterNode.Master.Deliver | lib/abricot/master.rb:76-77 | only the job owning the channel changes, as `OnReport` says, and its subscription closes as the report says |
| MasterNode.Master.KillEach | lib/abricot/master.rb:176-178 | each job is killed in order; the log gains one kill order per job that was unfinished, in order |
| MasterNode.Master.KillNext | lib/abricot/master.rb:177 | the i-th kill of a round kills job i and adds its order when it was unfinished |
| MasterNode.Master.KillAll | lib/abricot/master.rb:58-60 | one unconditional `killall` order to every slave |
| MasterNode.Master.KillAllJobs | lib/abricot/master.rb:54-56 | every registered job is killed with one order per unfinished job, in registry order; afterwards every job left registered is finished |

## Left out

- The broker connections, the subscribe loops, the slave's reconnect-and-retry, and the listener's exit on an exception are not modelled. The broker is a log of publications, a counter map and a subscription set.
- `Signal`, the mutex, condition variables, threads, `Thread#join` and the `INT` trap are concurrency. A wait is modelled by its condition: `Blocked` stands for "keep waiting".
- `state_changed!` (waking the signals) is not modelled; only the lists of signal handles are.
- Running the payload is operating-system process control, and is left out: the temporary file, `fork`/`exec`, process groups, TERM/KILL escalation, the 2-second timeout, polling the output. A runner's exit status and output are parameters of `SlaveNode.Slave.ReportDone`.
- The number of listening slaves (`num_workers_available`) is a parameter `available`.
- The random 10-letter job id is a parameter `generatedId`.
- JSON encoding is not modelled: messages are datatypes.
- `File.read` is not modelled: `options[:file]` holds the script text itself.
- The ANSI colours and cursor movement of the progress display are not modelled; only the label and the fraction of each line are.
- The blocking wrappers `exec` and `multi` are not modelled as such. They are compositions of `MasterNode.Master.AsyncExec`, `MasterNode.Master.BeginGroup`/`EndGroup`, `MasterNode.Multi.Wait` and `MasterNode.Multi.Finalize`.
- `MasterNode.Multi.Wait`: models one wake-up of the group. The `jobs.each(&:wait)` of the no-failure branch always returns, because every member has then succeeded.
- `MasterNode.Job.OnProgressSubscribe`: does not model the 600-second expiry of the slot counter.
- `MasterNode.Job.Payload`: computes the payload each time instead of memoising it. It is first computed after the worker check, when the worker count no longer changes, so the two agree.
- `MasterNode.Master.OnMessage`: returns `routed == false` for a channel no registered job owns. The code would call a method on `nil` there, and the listener would exit.
- `MasterNode.Job.Kill`: the lines the redraw produces are discarded, as the code only prints them.
- `Wire.JobIdOfChannel`: anchors the pattern at the whole string. Ruby's `^` and `$` also match at line breaks inside a channel name, and channel names with line breaks are not modelled.
- `SlaveNode.Slave.ProcessMessage`: a dispatch without a worker count admits no runner. The code's comparison with `nil` raises after the counter increment, ending the listener.
- Job ids are strings throughout; the `to_s` conversions of the code are not modelled.
- `lib/abricot/worker.rb` is not part of this model, and neither is the command-line front end `lib/abricot/cli.rb`.
