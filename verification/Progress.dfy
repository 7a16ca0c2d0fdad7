/**
 * The master's bookkeeping for one job, as values: its status and
 * counters, how `start` and `done` reports and `kill` change them, the
 * worker-count admission check, the tag check, the progress line and the
 * outcome of waiting; plus the fail-fast decision of a group of jobs.
 * The classes in MasterNode update their fields exactly as these
 * functions say.
 */
module Progress {
  import opened Wire

  datatype Status = Idle | Started | Running | Success | Failed | Killed

  /** `finished?`: the job will not be waited on any more. */
  predicate IsFinished(s: Status) {
    s == Success || s == Failed || s == Killed
  }

  /** `failed?`: true for a killed job as well as a failed one. */
  predicate IsFailed(s: Status) {
    s == Failed || s == Killed
  }

  /**
   * How `finished?` and `failed?` split the statuses: idle, started and
   * running are unfinished; a failed (or killed) job is finished; the only
   * finished status that is not a failure is success.
   */
  lemma FinishedAndFailed(s: Status)
    ensures !IsFinished(s) <==> s == Idle || s == Started || s == Running
    ensures IsFailed(s) ==> IsFinished(s)
    ensures IsFinished(s) && !IsFailed(s) <==> s == Success
  {
  }

  /** The fields of a job that progress reports and kills change. */
  datatype JobState = JobState(status: Status, numStarted: nat, numCompleted: nat, output: Option<string>)

  const Initial: JobState := JobState(Idle, 0, 0, None)

  /** The output a killed job reports. */
  const KilledOutput: string := "Job killed"

  /**
   * A `start` report: counts one more started worker; an idle job becomes
   * started, and a started job becomes running once every worker started.
   */
  function OnStart(s: JobState, numWorkers: Option<int>): (r: JobState)
    ensures r.numStarted == s.numStarted + 1
    ensures r.numCompleted == s.numCompleted && r.output == s.output
    ensures s.status != Idle && s.status != Started ==> r.status == s.status
    ensures s.status == Idle || s.status == Started ==>
              r.status == (if numWorkers == Some(r.numStarted) then Running else Started)
  {
    var status := if s.status == Idle then Started else s.status;
    var started := s.numStarted + 1;
    JobState(if numWorkers == Some(started) && status == Started then Running else status,
             started, s.numCompleted, s.output)
  }

  /**
   * A `done` report.  Ignored by a failed job; otherwise a non-zero exit
   * status fails the job and keeps the reported output, and a zero one
   * counts a completed worker, the job succeeding when all have completed.
   */
  function OnDone(s: JobState, numWorkers: Option<int>, status: int, output: Option<string>): (r: JobState)
    ensures s.status == Failed ==> r == s
    ensures s.status != Failed && status != 0 ==> r == s.(status := Failed, output := output)
    ensures s.status != Failed && status == 0 ==>
              && r.numCompleted == s.numCompleted + 1
              && r.numStarted == s.numStarted && r.output == s.output
              && r.status == (if numWorkers == Some(r.numCompleted) then Success else s.status)
  {
    if s.status == Failed then s
    else if status != 0 then JobState(Failed, s.numStarted, s.numCompleted, output)
    else
      var completed := s.numCompleted + 1;
      JobState(if numWorkers == Some(completed) then Success else s.status,
               s.numStarted, completed, s.output)
  }

  /**
   * Any report: the counters never go down, a finished job stays
   * finished, and a failed job keeps its status and output.
   */
  function OnReport(s: JobState, numWorkers: Option<int>, report: Report): (r: JobState)
    ensures r.numStarted >= s.numStarted && r.numCompleted >= s.numCompleted
    ensures IsFinished(s.status) ==> IsFinished(r.status)
    ensures s.status == Failed ==> r.status == Failed && r.output == s.output
  {
    match report
    case Start => OnStart(s, numWorkers)
    case Done(status, output) => OnDone(s, numWorkers, status, output)
  }

  /** Whether a report makes the master stop listening to the job's progress channel. */
  predicate ClosesProgress(s: JobState, numWorkers: Option<int>, report: Report) {
    report.Done? && s.status != Failed &&
    (report.status != 0 || numWorkers == Some(s.numCompleted + 1))
  }

  /** An external kill: a finished job is left alone, any other is marked killed. */
  function AfterKill(s: JobState): (r: JobState)
    ensures IsFinished(s.status) ==> r == s
    ensures !IsFinished(s.status) ==>
              r == s.(status := Killed, output := Some(KilledOutput))
  {
    if IsFinished(s.status) then s
    else JobState(Killed, s.numStarted, s.numCompleted, Some(KilledOutput))
  }

  /**
   * The `return if finished?` guard of `kill`, seen from the state before
   * the kill: a kill order is published exactly when the job was not
   * finished.
   */
  predicate KillPublishes(s: JobState) {
    !IsFinished(s.status)
  }

  /** A second kill changes nothing and publishes nothing. */
  lemma KillIsIdempotent(s: JobState)
    ensures AfterKill(AfterKill(s)) == AfterKill(s)
    ensures !KillPublishes(AfterKill(s))
    ensures IsFinished(AfterKill(s).status)
  {
  }

  /** A kill sent to each of several jobs. */
  function AfterKills(ss: seq<JobState>): (r: seq<JobState>)
    ensures |r| == |ss| && forall i :: 0 <= i < |ss| ==> r[i] == AfterKill(ss[i])
  {
    seq(|ss|, i requires 0 <= i < |ss| => AfterKill(ss[i]))
  }

  /** Anything that can happen to a job, in the order the master sees it. */
  datatype Event = Delivered(report: Report) | KillRequested

  function Step(s: JobState, numWorkers: Option<int>, e: Event): JobState {
    match e
    case Delivered(report) => OnReport(s, numWorkers, report)
    case KillRequested => AfterKill(s)
  }

  function Replay(s: JobState, numWorkers: Option<int>, events: seq<Event>): JobState
    decreases |events|
  {
    if events == [] then s else Replay(Step(s, numWorkers, events[0]), numWorkers, events[1..])
  }

  function CountStarts(events: seq<Event>): nat {
    if events == [] then 0
    else (if events[0] == Delivered(Start) then 1 else 0) + CountStarts(events[1..])
  }

  /** `numStarted` counts every `start` report, whatever the status. */
  lemma {:induction false} StartsAreCounted(s: JobState, numWorkers: Option<int>, events: seq<Event>)
    ensures Replay(s, numWorkers, events).numStarted == s.numStarted + CountStarts(events)
    decreases |events|
  {
    if events != [] {
      StartsAreCounted(Step(s, numWorkers, events[0]), numWorkers, events[1..]);
    }
  }

  /**
   * A finished job stays finished: no report or kill takes a successful,
   * failed or killed job back to idle, started or running.
   */
  lemma {:induction false} FinishedIsStable(s: JobState, numWorkers: Option<int>, events: seq<Event>)
    requires IsFinished(s.status)
    ensures IsFinished(Replay(s, numWorkers, events).status)
    decreases |events|
  {
    if events != [] {
      FinishedIsStable(Step(s, numWorkers, events[0]), numWorkers, events[1..]);
    }
  }

  /**
   * Failed is absorbing: afterwards only the count of started workers
   * moves; status, output and completed count never change again.
   */
  lemma {:induction false} FailedIsAbsorbing(s: JobState, numWorkers: Option<int>, events: seq<Event>)
    requires s.status == Failed
    ensures Replay(s, numWorkers, events) == s.(numStarted := s.numStarted + CountStarts(events))
    decreases |events|
  {
    if events != [] {
      var t := Step(s, numWorkers, events[0]);
      FailedIsAbsorbing(t, numWorkers, events[1..]);
    }
  }

  /**
   * Killed is not absorbing: only `failed` is guarded against `done`, so a
   * killed job still succeeds on the last completion, or fails.
   */
  lemma KilledJobCanStillChange(n: nat, out: Option<string>)
    ensures OnDone(JobState(Killed, n + 1, n, Some(KilledOutput)), Some(n + 1), 0, None).status == Success
    ensures OnDone(JobState(Killed, n + 1, n, Some(KilledOutput)), Some(n + 1), 1, out)
              == JobState(Failed, n + 1, n, out)
  {
  }

  function Starts(n: nat): (r: seq<Event>)
    ensures |r| == n && forall i :: 0 <= i < n ==> r[i] == Delivered(Start)
  {
    if n == 0 then [] else [Delivered(Start)] + Starts(n - 1)
  }

  function Completions(n: nat): (r: seq<Event>)
    ensures |r| == n && forall i :: 0 <= i < n ==> r[i] == Delivered(Done(0, None))
  {
    if n == 0 then [] else [Delivered(Done(0, None))] + Completions(n - 1)
  }

  /**
   * Starting a job that waits for k workers: after the first `start` it is
   * started, and it is running from the k-th on; with k = 1 it goes from
   * idle to running on one report.
   */
  lemma {:induction false} StartsReachRunning(s: JobState, k: int, n: nat)
    requires s.status == Idle || s.status == Started
    requires s.status == Idle <==> s.numStarted == 0
    requires s.numStarted < k
    ensures Replay(s, Some(k), Starts(n)).status ==
              if s.numStarted + n == 0 then Idle
              else if s.numStarted + n >= k then Running
              else Started
    decreases n
  {
    if n > 0 {
      var t := OnStart(s, Some(k));
      assert Starts(n)[1..] == Starts(n - 1);
      if t.status == Running {
        RunningIgnoresStarts(t, k, n - 1);
      } else {
        StartsReachRunning(t, k, n - 1);
      }
    }
  }

  lemma {:induction false} RunningIgnoresStarts(s: JobState, k: int, n: nat)
    requires s.status == Running
    ensures Replay(s, Some(k), Starts(n)).status == Running
    decreases n
  {
    if n > 0 {
      assert Starts(n)[1..] == Starts(n - 1);
      RunningIgnoresStarts(OnStart(s, Some(k)), k, n - 1);
    }
  }

  /**
   * Zero-status completions: each counts once, and the job succeeds as the
   * count reaches k (and stays successful); a job past k never succeeds.
   */
  lemma {:induction false} CompletionsReachSuccess(s: JobState, k: int, n: nat)
    requires s.status != Failed
    ensures Replay(s, Some(k), Completions(n)).numCompleted == s.numCompleted + n
    ensures Replay(s, Some(k), Completions(n)).output == s.output
    ensures Replay(s, Some(k), Completions(n)).status ==
              if s.numCompleted < k <= s.numCompleted + n then Success else s.status
    decreases n
  {
    if n > 0 {
      var t := OnDone(s, Some(k), 0, None);
      assert Completions(n)[1..] == Completions(n - 1);
      CompletionsReachSuccess(t, k, n - 1);
    }
  }

  datatype Failure =
    | NotEnoughSlaves(requested: Option<int>, available: nat)  // NotEnoughSlaves
    | MultipleTags(tag: string)                                // "Cannot have multi tags"

  /**
   * `check_for_enough_workers`: a requested count must not exceed the
   * workers available; without a request the available count is taken,
   * and there must be at least one.
   */
  function ResolveNumWorkers(requested: Option<int>, available: nat): (r: Result<int, Failure>)
    ensures r.Ok? <==> (requested.Some? && requested.value <= available) || (requested.None? && available > 0)
    ensures r.Err? ==> r.error == NotEnoughSlaves(requested, available)
    ensures r.Ok? ==> r.value <= available
    ensures r.Ok? && requested.Some? ==> r.value == requested.value
    ensures r.Ok? && requested.None? ==> r.value == available >= 1
  {
    match requested
    case Some(n) => if available < n then Err(NotEnoughSlaves(requested, available)) else Ok(n)
    case None => if available == 0 then Err(NotEnoughSlaves(requested, available)) else Ok(available)
  }

  /** `tag`: the job's tag, `_all_` by default; a comma in it is refused. */
  function ResolveTag(tag: Option<string>): (r: Result<string, Failure>)
    ensures r.Ok? <==> ',' !in tag.GetOr(AllTag)
    ensures r.Ok? ==> r.value == tag.GetOr(AllTag)
    ensures r.Err? ==> r.error == MultipleTags(tag.GetOr(AllTag))
    ensures tag.None? ==> r == Ok(AllTag)
  {
    var t := tag.GetOr(AllTag);
    if ',' in t then Err(MultipleTags(t)) else Ok(t)
  }

  /** `name`: the given name, or "Job <id>". */
  function JobName(name: Option<string>, id: string): (r: string)
    ensures name.Some? ==> r == name.value
    ensures name.None? ==> r == "Job " + id
  {
    name.GetOr("Job " + id)
  }

  /** The word the progress display shows for each status. */
  function StatusLabel(s: Status): (r: string)
    ensures r == "" <==> s == Idle
    ensures IsFinished(s) <==> r in ["done", "FAILED", "KILLED"]
  {
    match s
    case Idle => ""
    case Started => "started"
    case Running => "running"
    case Success => "done"
    case Failed => "FAILED"
    case Killed => "KILLED"
  }

  /** The label tells the status apart. */
  lemma LabelDeterminesStatus(a: Status, b: Status)
    ensures StatusLabel(a) == StatusLabel(b) ==> a == b
  {
  }

  /** One line of the progress display, without its colours. */
  datatype Line = Line(name: string, word: string, fraction: Option<(nat, Option<int>)>)

  /**
   * A started job shows started/total workers, a running one
   * completed/total; other statuses show no fraction.
   */
  function ProgressLine(name: string, s: JobState, numWorkers: Option<int>): (r: Line)
    ensures r.name == name && r.word == StatusLabel(s.status)
    ensures r.fraction.Some? <==> s.status == Started || s.status == Running
    ensures s.status == Started ==> r.fraction == Some((s.numStarted, numWorkers))
    ensures s.status == Running ==> r.fraction == Some((s.numCompleted, numWorkers))
  {
    Line(name, StatusLabel(s.status),
         match s.status
         case Started => Some((s.numStarted, numWorkers))
         case Running => Some((s.numCompleted, numWorkers))
         case _ => None)
  }

  /** What `wait` does in a given state. */
  datatype WaitResult =
    | Blocked                      // the condition is not met yet: the caller keeps waiting
    | Returned                     // finished without failure
    | Raised(output: Option<string>) // JobFailure carrying the output

  /**
   * `wait`: blocks until finished, then raises with the job's output when
   * `failed?` holds, which includes killed jobs.
   */
  function JobWait(s: JobState): (r: WaitResult)
    ensures r == Blocked <==> !IsFinished(s.status)
    ensures r.Raised? <==> IsFailed(s.status)
    ensures r.Raised? ==> r.output == s.output
    ensures r == Returned <==> s.status == Success
  {
    if !IsFinished(s.status) then Blocked
    else if IsFailed(s.status) then Raised(s.output)
    else Returned
  }

  /** A killed job's wait raises, with the kill marker as its output. */
  lemma WaitOnKilledRaises(s: JobState)
    requires KillPublishes(s)
    ensures JobWait(AfterKill(s)) == Raised(Some(KilledOutput))
  {
  }

  /** The last position holding a failed (or killed) status, as the group's scan keeps it. */
  function LastFailed(statuses: seq<Status>): (r: Option<nat>)
    ensures r.Some? ==> r.value < |statuses| && IsFailed(statuses[r.value])
    ensures r.Some? ==> forall j :: r.value < j < |statuses| ==> !IsFailed(statuses[j])
    ensures r.None? ==> forall j :: 0 <= j < |statuses| ==> !IsFailed(statuses[j])
  {
    if statuses == [] then None
    else if IsFailed(statuses[|statuses| - 1]) then Some(|statuses| - 1)
    else LastFailed(statuses[..|statuses| - 1])
  }

  predicate AllFinished(statuses: seq<Status>) {
    forall i :: 0 <= i < |statuses| ==> IsFinished(statuses[i])
  }

  /** The group wait proceeds when a member failed or was killed, or all finished. */
  predicate GroupMayProceed(statuses: seq<Status>) {
    LastFailed(statuses).Some? || AllFinished(statuses)
  }

  /** When the group proceeds without a failure, every member succeeded. */
  lemma ProceedWithoutFailureMeansSuccess(statuses: seq<Status>)
    requires GroupMayProceed(statuses) && LastFailed(statuses).None?
    ensures forall i :: 0 <= i < |statuses| ==> statuses[i] == Success
  {
  }

  /** The statuses of several jobs, in order. */
  function StatusesOf(ss: seq<JobState>): (r: seq<Status>)
    ensures |r| == |ss| && forall i :: 0 <= i < |ss| ==> r[i] == ss[i].status
  {
    seq(|ss|, i requires 0 <= i < |ss| => ss[i].status)
  }

  /**
   * `wait` of a group, once woken, decided on its members' states: blocked
   * until some member failed or all finished; then the `wait` of the last
   * failed member, which raises its output, or a plain return.
   */
  function GroupWait(ss: seq<JobState>): (r: WaitResult)
    ensures r == Blocked <==> !GroupMayProceed(StatusesOf(ss))
    ensures r.Raised? <==> LastFailed(StatusesOf(ss)).Some?
    ensures r.Raised? ==> r.output == ss[LastFailed(StatusesOf(ss)).value].output
    ensures r == Returned ==> forall i :: 0 <= i < |ss| ==> ss[i].status == Success
  {
    var failed := LastFailed(StatusesOf(ss));
    if failed.Some? then JobWait(ss[failed.value])
    else if AllFinished(StatusesOf(ss)) then Returned
    else Blocked
  }

  /** With a single failed member, that member is the one reported. */
  lemma SingleFailureIsReported(statuses: seq<Status>, k: nat)
    requires k < |statuses| && IsFailed(statuses[k])
    requires forall j :: 0 <= j < |statuses| && j != k ==> !IsFailed(statuses[j])
    ensures LastFailed(statuses) == Some(k)
  {
  }
}
