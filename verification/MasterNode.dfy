/**
 * The master side: the `Job` objects whose fields progress reports and
 * kills update, the `Multi` group with its fail-fast wait, and the
 * `Master` registry of jobs kept in insertion order and cleaned from the
 * front.  Each class lives in this one module, as in the source file,
 * because a job redraws through its master and the master holds its jobs.
 * Every field update is stated against the functions of module Progress.
 */
module MasterNode {
  import opened Wire
  import opened Bus
  import opened Script
  import opened Progress

  /** A wake-up handle; only its identity matters here. */
  class Signal {
  }

  /** What the caller of `async_exec` passes, `options[:file]` holding the script text itself. */
  datatype JobOptions = JobOptions(
    id: Option<string>,
    name: Option<string>,
    tag: Option<string>,
    numWorkers: Option<int>,
    args: Option<seq<string>>,
    file: Option<string>,
    cmd: bool)

  datatype Outcome = Pass | Fail(failure: Failure)

  /** `s` without any occurrence of `x`, the rest in order (`Array#delete`). */
  function RemoveAll<T(==)>(s: seq<T>, x: T): (r: seq<T>)
    ensures x !in r && |r| <= |s|
  {
    if s == [] then []
    else RemoveAll(s[..|s| - 1], x) + (if s[|s| - 1] == x then [] else [s[|s| - 1]])
  }

  /** Deleting `x` keeps exactly the other elements. */
  lemma {:induction false} RemoveAllKeepsOthers<T>(s: seq<T>, x: T)
    ensures forall y :: y in RemoveAll(s, x) <==> y in s && y != x
  {
    if s != [] {
      RemoveAllKeepsOthers(s[..|s| - 1], x);
      assert s == s[..|s| - 1] + [s[|s| - 1]];
    }
  }

  /** Appending a new handle and then deleting it gives back the list. */
  lemma {:induction false} RemoveAppended<T>(s: seq<T>, x: T)
    requires x !in s
    ensures RemoveAll(s + [x], x) == s
  {
    assert (s + [x])[..|s|] == s;
    RemoveAbsent(s, x);
  }

  lemma {:induction false} RemoveAbsent<T>(s: seq<T>, x: T)
    requires x !in s
    ensures RemoveAll(s, x) == s
  {
    if s != [] {
      RemoveAbsent(s[..|s| - 1], x);
      assert s[..|s| - 1] + [s[|s| - 1]] == s;
    }
  }

  /** Deleting twice is deleting once. */
  lemma {:induction false} RemoveAllIdempotent<T>(s: seq<T>, x: T)
    ensures RemoveAll(RemoveAll(s, x), x) == RemoveAll(s, x)
  {
    RemoveAbsent(RemoveAll(s, x), x);
  }

  class Job {
    const master: Master
    const id: string
    const options: JobOptions
    const args: seq<string>
    /** `options[:num_workers]`: requested, or filled in by the worker check. */
    var numWorkers: Option<int>
    /** `status`, `num_started`, `num_completed` and `output`, together. */
    var state: JobState
    const statusSignal: Signal
    var statusSignals: seq<Signal>

    /** A new idle job; without an id option it takes `generatedId`. */
    constructor (master: Master, options: JobOptions, generatedId: string)
      requires options.args.Some?
      ensures this.master == master
      ensures id == options.id.GetOr(generatedId) && this.options == options.(id := Some(id))
      ensures args == options.args.value && numWorkers == options.numWorkers
      ensures state == Initial
      ensures fresh(statusSignal) && statusSignals == [statusSignal]
    {
      this.master := master;
      id := options.id.GetOr(generatedId);
      this.options := options.(id := Some(options.id.GetOr(generatedId)));
      args := options.args.value;
      numWorkers := options.numWorkers;
      state := Initial;
      statusSignal := new Signal;
      statusSignals := [statusSignal];
    }

    /** `finished?`: every failed (or killed) job is finished; the only other finished status is success. */
    predicate Finished(): (r: bool)
      reads this
      ensures IsFailed(state.status) ==> r
      ensures r && !IsFailed(state.status) ==> state.status == Success
    {
      IsFinished(state.status)
    }

    /** `name`: the `name` option, or "Job " followed by the id. */
    function Name(): (r: string)
      ensures options.name.Some? ==> r == options.name.value
      ensures options.name.None? ==> r == "Job " + id
    {
      JobName(options.name, id)
    }

    /** `tag`: the `tag` option, `_all_` by default, refused when it holds a comma. */
    function Tag(): (r: Result<string, Failure>)
      ensures r.Ok? <==> ',' !in options.tag.GetOr(AllTag)
      ensures r.Ok? ==> r.value == options.tag.GetOr(AllTag)
    {
      ResolveTag(options.tag)
    }

    /**
     * `job_payload`: a dispatch order carrying the id and the current
     * worker count; a script always starts with an interpreter line; with
     * neither a file nor `cmd` the arguments are run directly.
     */
    function Payload(): (r: Order)
      reads this
      ensures r.Dispatch? && r.id == id && r.numWorkers == numWorkers
      ensures r.payload.Script? ==> HasShebang(r.payload.script)
      ensures options.file.None? && !options.cmd ==> r.payload == Exec(args)
    {
      JobPayload(id, options.file, options.cmd, args, numWorkers)
    }

    /**
     * `check_for_enough_workers`, given the number of slaves listening on
     * the job's tag: refuses a bad tag or too few slaves, and otherwise
     * fixes the worker count.
     */
    method CheckForEnoughWorkers(available: nat) returns (r: Outcome)
      modifies this`numWorkers
      ensures Tag().Err? ==> r == Fail(Tag().error) && numWorkers == old(numWorkers)
      ensures Tag().Ok? ==>
                var resolved := ResolveNumWorkers(old(numWorkers), available);
                && (r == Pass <==> resolved.Ok?)
                && (resolved.Ok? ==> numWorkers == Some(resolved.value))
                && (resolved.Err? ==> r == Fail(resolved.error) && numWorkers == old(numWorkers))
    {
      var requested := numWorkers;
      var tag := Tag();
      if tag.Err? {
        return Fail(tag.error);
      }
      match requested {
        case Some(n) =>
          if available < n {
            return Fail(NotEnoughSlaves(requested, available));
          }
        case None =>
          if available == 0 {
            return Fail(NotEnoughSlaves(requested, available));
          }
          numWorkers := Some(available);
      }
      return Pass;
    }

    /**
     * The job's part of `async_exec`: the worker check, and only when it
     * passes, the subscription to the job's progress channel.  A refused
     * job touches nothing on the bus.
     */
    method AsyncExec(available: nat) returns (r: Outcome)
      modifies this`numWorkers, master.broker`subscriptions
      ensures Tag().Ok? && ResolveNumWorkers(old(numWorkers), available).Ok? <==> r == Pass
      ensures r.Pass? ==> numWorkers == Some(ResolveNumWorkers(old(numWorkers), available).value)
      ensures r.Pass? ==> master.broker.subscriptions == old(master.broker.subscriptions) + {ProgressChannel(id)}
      ensures r.Fail? ==> numWorkers == old(numWorkers) && master.broker.subscriptions == old(master.broker.subscriptions)
    {
      r := CheckForEnoughWorkers(available);
      if r.Pass? {
        master.broker.Subscribe(ProgressChannel(id));
      }
    }

    /**
     * `on_progress_subscribe`: once the progress channel is open, reset the
     * slot counter and publish the payload on the tag's control channel.
     * A bad tag raises before anything is sent.
     */
    method OnProgressSubscribe() returns (r: Outcome)
      modifies master.broker`counters, master.broker`published
      ensures Tag().Err? ==> r == Fail(Tag().error) && master.broker.published == old(master.broker.published)
      ensures Tag().Err? ==> master.broker.counters == old(master.broker.counters)
      ensures Tag().Ok? ==>
                && r == Pass
                && master.broker.counters == old(master.broker.counters)[CounterKey(id) := 0]
                && master.broker.published == old(master.broker.published) +
                     [Publication(ControlChannel(Tag().value), Control(ControlMessage(Payload(), None)))]
    {
      var tag := Tag();
      if tag.Err? {
        return Fail(tag.error);
      }
      master.broker.Set(CounterKey(id), 0);
      master.broker.Publish(ControlChannel(tag.value), Control(ControlMessage(Payload(), None)));
      r := Pass;
    }

    /**
     * `on_progress_message`: apply a `start` or `done` report, and stop
     * listening to the job once it fails or all workers completed.
     */
    method OnProgressMessage(report: Report)
      modifies this`state, master.broker`subscriptions
      ensures state == OnReport(old(state), numWorkers, report)
      ensures master.broker.subscriptions ==
                if ClosesProgress(old(state), numWorkers, report)
                then old(master.broker.subscriptions) - {ProgressChannel(id)}
                else old(master.broker.subscriptions)
    {
      match report
      case Start =>
        if state.status == Idle {
          state := state.(status := Started);
        }
        state := state.(numStarted := state.numStarted + 1);
        if numWorkers == Some(state.numStarted) && state.status == Started {
          state := state.(status := Running);
        }
      case Done(exitStatus, reported) =>
        if state.status != Failed {
          if exitStatus != 0 {
            master.broker.Unsubscribe(ProgressChannel(id));
            state := state.(status := Failed, output := reported);
          } else {
            state := state.(numCompleted := state.numCompleted + 1);
            if numWorkers == Some(state.numCompleted) {
              master.broker.Unsubscribe(ProgressChannel(id));
              state := state.(status := Success);
            }
          }
        }
    }

    /**
     * `kill`: nothing for a finished job; otherwise one fleet-wide kill
     * order, the job marked killed, and the progress display redrawn.
     */
    method Kill()
      modifies this`state, master`jobs, master`lastNumPrintedLines, master.broker`published
      ensures state == AfterKill(old(state))
      ensures master.broker.published ==
                old(master.broker.published) + (if KillPublishes(old(state)) then [KillPublication(id)] else [])
      ensures !KillPublishes(old(state)) ==>
                master.jobs == old(master.jobs) && master.lastNumPrintedLines == old(master.lastNumPrintedLines)
      ensures KillPublishes(old(state)) ==> master.Cleaned() && master.lastNumPrintedLines == |master.jobs|
      ensures IsSuffix(master.jobs, old(master.jobs)) && DroppedFinished(old(master.jobs), master.jobs)
    {
      if Finished() {
        return;
      }
      master.broker.Publish(ControlChannel(AllTag), Control(ControlMessage(Order.Kill(id), None)));
      state := state.(status := Killed, output := Some(KilledOutput));
      var _ := master.RedrawProgress();
    }
  }

  /** The jobs' states, in order. */
  function States(js: seq<Job>): (r: seq<JobState>)
    reads js
    ensures |r| == |js| && forall i :: 0 <= i < |js| ==> r[i] == js[i].state
  {
    if js == [] then [] else States(js[..|js| - 1]) + [js[|js| - 1].state]
  }

  /** The kill orders a round of kills over `js` publishes, in order: one per unfinished job. */
  function KillOrders(js: seq<Job>): seq<Publication>
    reads js
  {
    KillPublications(PendingKills(Ids(js), States(js)))
  }

  /** The ids of the jobs, in order. */
  function Ids(js: seq<Job>): (r: seq<string>)
    ensures |r| == |js| && forall i :: 0 <= i < |js| ==> r[i] == js[i].id
  {
    seq(|js|, i requires 0 <= i < |js| => js[i].id)
  }

  /**
   * The ids a round of kills over jobs with these ids and states publishes
   * for, in order: those of the jobs not yet finished.
   */
  function PendingKills(ids: seq<string>, ss: seq<JobState>): (r: seq<string>)
    requires |ids| == |ss|
    ensures |r| <= |ids|
  {
    if ids == [] then []
    else PendingKills(ids[..|ids| - 1], ss[..|ss| - 1]) + (if KillPublishes(ss[|ss| - 1]) then [ids[|ids| - 1]] else [])
  }

  /** A kill round publishes for exactly the jobs that were not yet finished. */
  lemma {:induction false} PendingKillsAreUnfinished(ids: seq<string>, ss: seq<JobState>)
    requires |ids| == |ss|
    ensures forall i :: 0 <= i < |ids| && KillPublishes(ss[i]) ==> ids[i] in PendingKills(ids, ss)
    ensures forall x :: x in PendingKills(ids, ss) ==>
              exists i :: 0 <= i < |ids| && ids[i] == x && KillPublishes(ss[i])
  {
    if ids != [] {
      var n := |ids| - 1;
      PendingKillsAreUnfinished(ids[..n], ss[..n]);
    }
  }

  lemma PendingKillsStep(ids: seq<string>, ss: seq<JobState>, i: nat)
    requires |ids| == |ss| && i < |ids|
    ensures PendingKills(ids[..i + 1], ss[..i + 1]) ==
              PendingKills(ids[..i], ss[..i]) + (if KillPublishes(ss[i]) then [ids[i]] else [])
  {
    assert ids[..i + 1][..i] == ids[..i];
    assert ss[..i + 1][..i] == ss[..i];
  }

  lemma KillPublicationsSnoc(ids: seq<string>, id: string)
    ensures KillPublications(ids + [id]) == KillPublications(ids) + [KillPublication(id)]
  {
    assert (ids + [id])[..|ids|] == ids;
  }

  lemma KillRoundStep(p0: seq<Publication>, p1: seq<Publication>, p2: seq<Publication>,
                      ids: seq<string>, ss: seq<JobState>, i: nat)
    requires |ids| == |ss| && i < |ids|
    requires p1 == p0 + KillPublications(PendingKills(ids[..i], ss[..i]))
    requires p2 == p1 + (if KillPublishes(ss[i]) then [KillPublication(ids[i])] else [])
    ensures p2 == p0 + KillPublications(PendingKills(ids[..i + 1], ss[..i + 1]))
  {
    PendingKillsStep(ids, ss, i);
    KillPublicationsSnoc(PendingKills(ids[..i], ss[..i]), ids[i]);
  }

  /** A second round of kills publishes nothing: every job is finished after the first. */
  lemma {:induction false} SecondRoundPublishesNothing(ids: seq<string>, ss: seq<JobState>, after: seq<JobState>)
    requires |ids| == |ss| == |after|
    requires forall i :: 0 <= i < |ss| ==> after[i] == AfterKill(ss[i])
    ensures PendingKills(ids, after) == []
  {
    if ids != [] {
      var n := |ids| - 1;
      SecondRoundPublishesNothing(ids[..n], ss[..n], after[..n]);
      KillIsIdempotent(ss[n]);
    }
  }

  /** A kill round over `js`, whose states were `ss`, has killed its first `i` members. */
  ghost predicate KilledUpTo(js: seq<Job>, ss: seq<JobState>, i: nat)
    reads js
  {
    && |ss| == |js| && i <= |js|
    && (forall k :: 0 <= k < i ==> js[k].state == AfterKill(ss[k]))
    && (forall k :: i <= k < |js| ==> js[k].state == ss[k])
  }

  /** A round that has killed every member leaves each with its state after a kill. */
  lemma KilledAll(js: seq<Job>, ss: seq<JobState>)
    requires KilledUpTo(js, ss, |js|)
    ensures States(js) == AfterKills(ss)
  {
    forall k | 0 <= k < |js|
      ensures States(js)[k] == AfterKills(ss)[k]
    {
    }
  }

  /** How many jobs at the front are finished. */
  function LeadingFinished(js: seq<Job>): (n: nat)
    reads js
    ensures n <= |js|
    ensures forall i :: 0 <= i < n ==> js[i].Finished()
    ensures n < |js| ==> !js[n].Finished()
  {
    if js == [] || !js[0].Finished() then 0 else 1 + LeadingFinished(js[1..])
  }

  /** The progress display: one line per job, in order. */
  function Display(js: seq<Job>): (r: seq<Line>)
    reads js
    ensures |r| == |js|
    ensures forall i :: 0 <= i < |js| ==> r[i] == ProgressLine(js[i].Name(), js[i].state, js[i].numWorkers)
  {
    if js == [] then [] else Display(js[..|js| - 1]) + [ProgressLine(js[|js| - 1].Name(), js[|js| - 1].state, js[|js| - 1].numWorkers)]
  }

  class Multi {
    const master: Master
    var jobs: seq<Job>
    const signal: Signal

    constructor (master: Master)
      ensures this.master == master && jobs == [] && fresh(signal)
    {
      this.master := master;
      jobs := [];
      signal := new Signal;
    }

    /** The members are distinct jobs of this group's master. */
    ghost predicate Valid()
      reads this
    {
      && (forall i, j :: 0 <= i < j < |jobs| ==> jobs[i] != jobs[j])
      && (forall i :: 0 <= i < |jobs| ==> jobs[i].master == master)
    }

    /** `add_job`: the job also signals the group, and joins it at the end. */
    method AddJob(job: Job)
      requires Valid() && job !in jobs && job.master == master
      modifies this`jobs, job`statusSignals
      ensures Valid()
      ensures jobs == old(jobs) + [job]
      ensures job.statusSignals == old(job.statusSignals) + [signal]
    {
      job.statusSignals := job.statusSignals + [signal];
      jobs := jobs + [job];
    }

    /** `finalize`: every member stops signalling the group; nothing else changes. */
    method Finalize()
      requires Valid()
      modifies jobs`statusSignals
      ensures forall i :: 0 <= i < |jobs| ==>
                jobs[i].statusSignals == RemoveAll(old(jobs[i].statusSignals), signal)
      ensures forall i :: 0 <= i < |jobs| ==>
                jobs[i].state == old(jobs[i].state) && jobs[i].numWorkers == old(jobs[i].numWorkers)
    {
      for i := 0 to |jobs|
        invariant forall k :: 0 <= k < i ==> jobs[k].statusSignals == RemoveAll(old(jobs[k].statusSignals), signal)
        invariant forall k :: i <= k < |jobs| ==> jobs[k].statusSignals == old(jobs[k].statusSignals)
      {
        jobs[i].statusSignals := RemoveAll(jobs[i].statusSignals, signal);
      }
    }

    /** The scan of `wait`: the last member in list order that `failed?`, if any. */
    method LastFailedJob() returns (r: Option<nat>)
      ensures r == LastFailed(StatusesOf(States(jobs)))
    {
      ghost var all := StatusesOf(States(jobs));
      r := None;
      for i := 0 to |jobs|
        invariant r == LastFailed(all[..i])
      {
        assert all[..i + 1][..i] == all[..i];
        if IsFailed(jobs[i].state.status) {
          r := Some(i);
        }
      }
      assert all[..|jobs|] == all;
    }

    /**
     * `kill`, and the fail-fast round of `wait`: every member not yet
     * finished is killed, one kill order each, in list order.
     */
    method KillJobs()
      requires Valid()
      modifies jobs`state, master`jobs, master`lastNumPrintedLines, master.broker`published
      ensures IsSuffix(master.jobs, old(master.jobs))
      ensures States(jobs) == AfterKills(old(States(jobs)))
      ensures master.broker.published == old(master.broker.published) + old(KillOrders(jobs))
    {
      master.KillEach(jobs);
    }

    /**
     * The failure branch of `wait`: the unfinished members are killed, and
     * the failed member `k` (already finished, so untouched) gives the verdict.
     */
    method FailFast(k: nat) returns (r: WaitResult)
      requires Valid() && k < |jobs| && IsFailed(jobs[k].state.status)
      modifies jobs`state, master`jobs, master`lastNumPrintedLines, master.broker`published
      ensures r == Raised(old(jobs[k].state.output))
      ensures master.broker.published ==
                old(master.broker.published) + old(KillOrders(jobs))
      ensures States(jobs) == AfterKills(old(States(jobs)))
      ensures IsSuffix(master.jobs, old(master.jobs))
    {
      KillJobs();
      r := JobWait(jobs[k].state);
    }

    /**
     * `wait`, once woken: blocked while no member failed and some are
     * unfinished; on a failure (or kill) the unfinished members are killed
     * and the last failed member's failure is raised; otherwise it returns.
     */
    method Wait() returns (r: WaitResult)
      requires Valid()
      modifies jobs`state, master`jobs, master`lastNumPrintedLines, master.broker`published
      ensures r == GroupWait(old(States(jobs)))
      ensures States(jobs) == if r.Raised? then AfterKills(old(States(jobs))) else old(States(jobs))
      ensures r.Raised? ==>
                master.broker.published == old(master.broker.published) + old(KillOrders(jobs))
      ensures !r.Raised? ==> master.broker.published == old(master.broker.published)
      ensures IsSuffix(master.jobs, old(master.jobs))
      ensures r != Blocked ==> master.Cleaned() && master.lastNumPrintedLines == |master.jobs|
    {
      var failed := LastFailedJob();
      if failed.Some? {
        r := FailFast(failed.value);
      } else if forall i :: 0 <= i < |jobs| ==> jobs[i].Finished() {
        r := Returned;
      } else {
        return Blocked;
      }
      ghost var registered := master.jobs;
      Redraw();
      IsSuffixTransitive(master.jobs, registered, old(master.jobs));
    }

    /** The master's redraw, seen from the group: no member's state and no publication changes. */
    method Redraw()
      modifies master`jobs, master`lastNumPrintedLines
      ensures IsSuffix(master.jobs, old(master.jobs)) && DroppedFinished(old(master.jobs), master.jobs)
      ensures master.Cleaned() && master.lastNumPrintedLines == |master.jobs|
      ensures unchanged(jobs)
    {
      var _ := master.RedrawProgress();
    }
  }

  /** No two jobs share an id. */
  predicate DistinctIds(js: seq<Job>) {
    forall i, j :: 0 <= i < j < |js| ==> js[i].id != js[j].id
  }

  /** Jobs kept under distinct ids, all belonging to master `m`. */
  predicate Registry(js: seq<Job>, m: Master) {
    && DistinctIds(js)
    && forall i :: 0 <= i < |js| ==> js[i].master == m
  }

  /** `a` is what is left of `b` after dropping some elements from its front. */
  predicate IsSuffix<T(==)>(a: seq<T>, b: seq<T>) {
    && |a| <= |b|
    && forall i :: 0 <= i < |a| ==> a[i] == b[|b| - |a| + i]
  }

  /** Dropping the first `n` elements leaves a suffix. */
  lemma DropIsSuffix<T>(b: seq<T>, n: nat)
    requires n <= |b|
    ensures IsSuffix(b[n..], b)
  {
  }

  /** Every job that left the registry `before` on the way to `after` is finished. */
  ghost predicate DroppedFinished(before: seq<Job>, after: seq<Job>)
    reads before
  {
    forall j :: j in before && j !in after ==> j.Finished()
  }

  /** Dropping finished jobs from the front drops only finished jobs. */
  lemma DropFinished(b: seq<Job>, n: nat)
    requires n <= |b| && forall i :: 0 <= i < n ==> b[i].Finished()
    ensures DroppedFinished(b, b[n..])
  {
    forall j | j in b && j !in b[n..]
      ensures j.Finished()
    {
      var i :| 0 <= i < |b| && b[i] == j;
    }
  }

  lemma IsSuffixTransitive<T>(a: seq<T>, b: seq<T>, c: seq<T>)
    requires IsSuffix(a, b) && IsSuffix(b, c)
    ensures IsSuffix(a, c)
  {
    forall i | 0 <= i < |a|
      ensures a[i] == c[|c| - |a| + i]
    {
      assert a[i] == b[|b| - |a| + i];
    }
  }

  /** Dropping jobs from the front of a registry leaves a registry. */
  lemma RegistrySuffix(a: seq<Job>, b: seq<Job>, m: Master)
    requires Registry(b, m) && IsSuffix(a, b)
    ensures Registry(a, m)
  {
    forall i, j | 0 <= i < j < |a|
      ensures a[i].id != a[j].id
    {
      assert a[i] == b[|b| - |a| + i] && a[j] == b[|b| - |a| + j];
    }
  }

  /** Where the job with this id sits in `js`, if anywhere. */
  function IndexOfId(js: seq<Job>, id: string): (r: Option<nat>)
    ensures r.Some? ==> r.value < |js| && js[r.value].id == id
    ensures r.None? ==> forall i :: 0 <= i < |js| ==> js[i].id != id
  {
    if js == [] then None
    else if js[|js| - 1].id == id then Some(|js| - 1)
    else IndexOfId(js[..|js| - 1], id)
  }

  class Master {
    const broker: Broker
    /** `@jobs`: the registered jobs in insertion order, each under its own id. */
    var jobs: seq<Job>
    var lastNumPrintedLines: int
    var multi: Multi?

    /** Each registered job sits under its own id and belongs to this master. */
    ghost predicate Valid()
      reads this
    {
      Registry(jobs, this)
    }

    /** The open group, if any, is this master's and well formed. */
    ghost predicate GroupValid()
      reads this, multi
    {
      multi != null ==> multi.master == this && multi.Valid()
    }

    constructor (broker: Broker)
      ensures Valid() && GroupValid() && this.broker == broker
      ensures jobs == [] && multi == null && lastNumPrintedLines == 0
    {
      this.broker := broker;
      jobs := [];
      lastNumPrintedLines := 0;
      multi := null;
    }

    /** No finished job waits at the front of the registry. */
    predicate Cleaned()
      reads this, jobs
    {
      jobs == [] || !jobs[0].Finished()
    }

    /** `get_job_from_channel`: the registered job whose progress channel this is. */
    function JobFromChannel(channel: string): (r: Option<Job>)
      reads this
      ensures r.Some? ==> r.value in jobs && ProgressChannel(r.value.id) == channel
      ensures r.None? ==> forall i :: 0 <= i < |jobs| ==> ProgressChannel(jobs[i].id) != channel
    {
      forall i | 0 <= i < |jobs|
        ensures JobIdOfChannel(ProgressChannel(jobs[i].id)) == Some(jobs[i].id)
      {
        ProgressChannelRoundTrip(jobs[i].id);
      }
      var id := JobIdOfChannel(channel);
      if id.None? then None
      else
        var k := IndexOfId(jobs, id.value);
        if k.None? then None else Some(jobs[k.value])
    }

    /** `@jobs[job.id] = job`: a new id goes last, a known id keeps its place. */
    method Register(job: Job)
      requires Valid() && job.master == this
      modifies this`jobs
      ensures Valid()
      ensures IndexOfId(old(jobs), job.id).Some? ==> jobs == old(jobs)[IndexOfId(old(jobs), job.id).value := job]
      ensures IndexOfId(old(jobs), job.id).None? ==> jobs == old(jobs) + [job]
    {
      var k := IndexOfId(jobs, job.id);
      if k.Some? {
        jobs := jobs[k.value := job];
      } else {
        jobs := jobs + [job];
      }
    }

    /**
     * `cleanup_jobs`: drop finished jobs from the front of the registry,
     * stopping at the first unfinished one; one printed line fewer per drop.
     */
    method CleanupJobs()
      modifies this`jobs, this`lastNumPrintedLines
      ensures Cleaned()
      ensures var n := old(LeadingFinished(jobs));
              && jobs == old(jobs)[n..]
              && lastNumPrintedLines == old(lastNumPrintedLines) - n
      ensures DroppedFinished(old(jobs), jobs)
    {
      ghost var removed := 0;
      while jobs != [] && jobs[0].Finished()
        invariant 0 <= removed <= |old(jobs)| && jobs == old(jobs)[removed..]
        invariant forall i :: 0 <= i < removed ==> old(jobs)[i].Finished()
        invariant lastNumPrintedLines == old(lastNumPrintedLines) - removed
        decreases |jobs|
      {
        jobs := jobs[1..];
        lastNumPrintedLines := lastNumPrintedLines - 1;
        removed := removed + 1;
      }
      DropFinished(old(jobs), removed);
    }

    /**
     * `redraw_progress`: the display lines of every registered job, then the
     * printed-line count set to the registry size and the registry cleaned.
     */
    method RedrawProgress() returns (lines: seq<Line>)
      modifies this`jobs, this`lastNumPrintedLines
      ensures lines == old(Display(jobs))
      ensures Cleaned()
      ensures jobs == old(jobs)[old(LeadingFinished(jobs))..] && IsSuffix(jobs, old(jobs))
      ensures DroppedFinished(old(jobs), jobs)
      ensures lastNumPrintedLines == |jobs|
    {
      lines := Display(jobs);
      lastNumPrintedLines := |jobs|;
      DropIsSuffix(jobs, LeadingFinished(jobs));
      CleanupJobs();
    }

    /**
     * `async_exec`: register a new job (before its check, so a refused job
     * stays registered), run its check and subscription, and add it to the
     * open group when it passed.
     */
    method AsyncExec(args: seq<string>, options: JobOptions, generatedId: string, available: nat)
      returns (job: Job, r: Outcome)
      requires Valid() && GroupValid()
      modifies this`jobs, broker`subscriptions, multi
      ensures Valid() && GroupValid() && fresh(job) && job.master == this
      ensures job.id == options.id.GetOr(generatedId) && job.args == options.args.GetOr(args)
      ensures IndexOfId(old(jobs), job.id).Some? ==> jobs == old(jobs)[IndexOfId(old(jobs), job.id).value := job]
      ensures IndexOfId(old(jobs), job.id).None? ==> jobs == old(jobs) + [job]
      ensures job.state == Initial
      ensures r == Pass <==> job.Tag().Ok? && ResolveNumWorkers(options.numWorkers, available).Ok?
      ensures r.Pass? ==> job.numWorkers == Some(ResolveNumWorkers(options.numWorkers, available).value)
      ensures r.Fail? ==> job.numWorkers == options.numWorkers
      ensures multi != null && r.Pass? ==> job.statusSignals == [job.statusSignal, multi.signal]
      ensures multi == null || r.Fail? ==> job.statusSignals == [job.statusSignal]
      ensures r.Pass? ==> broker.subscriptions == old(broker.subscriptions) + {ProgressChannel(job.id)}
      ensures r.Fail? ==> broker.subscriptions == old(broker.subscriptions)
      ensures multi != null && r.Pass? ==> multi.jobs == old(multi.jobs) + [job]
      ensures multi != null && r.Fail? ==> multi.jobs == old(multi.jobs)
    {
      var opts := options.(args := Some(options.args.GetOr(args)));
      job := new Job(this, opts, generatedId);
      Register(job);
      r := job.AsyncExec(available);
      if r.Pass? && multi != null {
        multi.AddJob(job);
      }
    }

    /** `async_multi` opening its scope: later jobs join a new group. */
    method BeginGroup() returns (m: Multi)
      requires Valid()
      modifies this`multi
      ensures Valid() && GroupValid() && fresh(m) && multi == m && m.master == this && m.jobs == []
    {
      m := new Multi(this);
      multi := m;
    }

    /** `async_multi` closing its scope. */
    method EndGroup()
      requires Valid()
      modifies this`multi
      ensures Valid() && GroupValid() && multi == null
    {
      multi := null;
    }

    /**
     * The listener's subscribe callback: when the channel is a job's
     * progress channel, that job publishes its payload; then redraw.
     */
    method OnSubscribed(channel: string) returns (r: Outcome)
      requires Valid()
      modifies this`jobs, this`lastNumPrintedLines, broker`counters, broker`published
      ensures Valid() && IsSuffix(jobs, old(jobs))
      ensures Cleaned() && lastNumPrintedLines == |jobs| && DroppedFinished(old(jobs), jobs)
      ensures old(JobFromChannel(channel)).None? ==>
                r == Pass && broker.published == old(broker.published) && broker.counters == old(broker.counters)
      ensures old(JobFromChannel(channel)).Some? ==>
                var job := old(JobFromChannel(channel)).value;
                && (job.Tag().Ok? <==> r == Pass)
                && broker.published == old(broker.published) +
                     (if r == Pass
                      then [Publication(ControlChannel(job.Tag().value), Control(ControlMessage(job.Payload(), None)))]
                      else [])
                && broker.counters == if r == Pass then old(broker.counters)[CounterKey(job.id) := 0] else old(broker.counters)
    {
      r := StartDispatch(channel);
      RedrawRegistry();
    }

    /** The job's part of the subscribe callback: the job owning the channel, if any, resets its counter and publishes. */
    method StartDispatch(channel: string) returns (r: Outcome)
      requires Valid()
      modifies broker`counters, broker`published
      ensures JobFromChannel(channel).None? ==>
                r == Pass && broker.published == old(broker.published) && broker.counters == old(broker.counters)
      ensures JobFromChannel(channel).Some? ==>
                var job := JobFromChannel(channel).value;
                && (job.Tag().Ok? <==> r == Pass)
                && broker.published == old(broker.published) +
                     (if r == Pass
                      then [Publication(ControlChannel(job.Tag().value), Control(ControlMessage(job.Payload(), None)))]
                      else [])
                && broker.counters == if r == Pass then old(broker.counters)[CounterKey(job.id) := 0] else old(broker.counters)
    {
      var job := JobFromChannel(channel);
      r := Pass;
      if job.Some? {
        r := job.value.OnProgressSubscribe();
      }
    }

    /**
     * `redraw_progress` as the callbacks call it: the registry stays well
     * formed, is cleaned, only loses finished jobs from its front, and the
     * printed-line count is its size.
     */
    method RedrawRegistry()
      requires Valid()
      modifies this`jobs, this`lastNumPrintedLines
      ensures Valid() && IsSuffix(jobs, old(jobs))
      ensures Cleaned() && lastNumPrintedLines == |jobs| && DroppedFinished(old(jobs), jobs)
    {
      var _ := RedrawProgress();
      RegistrySuffix(jobs, old(jobs), this);
    }

    /**
     * The listener's message callback: the report goes to the job named by
     * the channel, then the display is redrawn.  `routed` is false when no
     * registered job owns the channel.
     */
    method OnMessage(channel: string, report: Report) returns (routed: bool)
      requires Valid()
      modifies this`jobs, this`lastNumPrintedLines, broker`subscriptions, jobs`state
      ensures Valid() && IsSuffix(jobs, old(jobs))
      ensures Cleaned() && lastNumPrintedLines == |jobs| && DroppedFinished(old(jobs), jobs)
      ensures routed <==> old(JobFromChannel(channel)).Some?
      ensures routed ==>
                var job := old(JobFromChannel(channel)).value;
                && job.state == OnReport(old(job.state), job.numWorkers, report)
                && (forall j :: j in old(jobs) && j != job ==> j.state == old(j.state))
                && broker.subscriptions ==
                     if ClosesProgress(old(job.state), job.numWorkers, report)
                     then old(broker.subscriptions) - {ProgressChannel(job.id)}
                     else old(broker.subscriptions)
      ensures !routed ==>
                && (forall j :: j in old(jobs) ==> j.state == old(j.state))
                && broker.subscriptions == old(broker.subscriptions)
    {
      routed := Deliver(channel, report);
      label delivered:
      RedrawRegistry();
      assert forall j :: j in old(jobs) ==> j.state == old@delivered(j.state);
    }

    /** The job's part of the message callback: the report changes the state of the job owning the channel, and no other. */
    method Deliver(channel: string, report: Report) returns (routed: bool)
      requires Valid()
      modifies broker`subscriptions, jobs`state
      ensures routed <==> JobFromChannel(channel).Some?
      ensures routed ==>
                var job := JobFromChannel(channel).value;
                && job.state == OnReport(old(job.state), job.numWorkers, report)
                && (forall j :: j in jobs && j != job ==> j.state == old(j.state))
                && broker.subscriptions ==
                     if ClosesProgress(old(job.state), job.numWorkers, report)
                     then old(broker.subscriptions) - {ProgressChannel(job.id)}
                     else old(broker.subscriptions)
      ensures !routed ==>
                && (forall j :: j in jobs ==> j.state == old(j.state))
                && broker.subscriptions == old(broker.subscriptions)
    {
      var job := JobFromChannel(channel);
      routed := job.Some?;
      if routed {
        job.value.OnProgressMessage(report);
      }
    }

    /**
     * Kill each of the distinct jobs `js` of this master, in order: every
     * one not yet finished is marked killed and gets one kill order.
     */
    method KillEach(js: seq<Job>)
      requires forall k, m :: 0 <= k < m < |js| ==> js[k] != js[m]
      requires forall k :: 0 <= k < |js| ==> js[k].master == this
      modifies js`state, this`jobs, this`lastNumPrintedLines, broker`published
      ensures States(js) == AfterKills(old(States(js)))
      ensures broker.published == old(broker.published) + old(KillOrders(js))
      ensures IsSuffix(jobs, old(jobs))
    {
      ghost var ids, ss := Ids(js), States(js);
      for i := 0 to |js|
        invariant KilledUpTo(js, ss, i)
        invariant broker.published == old(broker.published) + KillPublications(PendingKills(ids[..i], ss[..i]))
        invariant IsSuffix(jobs, old(jobs))
      {
        ghost var before := broker.published;
        KillNext(js, ids, ss, old(jobs), i);
        KillRoundStep(old(broker.published), before, broker.published, ids, ss, i);
      }
      assert ids[..|js|] == ids && ss[..|js|] == ss;
      KilledAll(js, ss);
    }

    /**
     * The `i`-th kill of a round over the distinct jobs `js` of this
     * master: the round's states, kill orders and registry move on by one.
     */
    method KillNext(js: seq<Job>, ghost ids: seq<string>, ghost ss: seq<JobState>,
                    ghost j0: seq<Job>, i: nat)
      requires i < |js| && ids == Ids(js) && KilledUpTo(js, ss, i)
      requires forall k, m :: 0 <= k < m < |js| ==> js[k] != js[m]
      requires js[i].master == this
      requires IsSuffix(jobs, j0)
      modifies js`state, this`jobs, this`lastNumPrintedLines, broker`published
      ensures KilledUpTo(js, ss, i + 1)
      ensures broker.published == old(broker.published) + (if KillPublishes(ss[i]) then [KillPublication(ids[i])] else [])
      ensures IsSuffix(jobs, j0)
    {
      ghost var registered := jobs;
      js[i].Kill();
      IsSuffixTransitive(jobs, registered, j0);
    }

    /** `kill_all`: one unconditional `killall` order to every slave. */
    method KillAll()
      modifies broker`published
      ensures broker.published ==
                old(broker.published) + [Publication(ControlChannel(AllTag), Control(ControlMessage(Order.KillAll, None)))]
    {
      broker.Publish(ControlChannel(AllTag), Control(ControlMessage(Order.KillAll, None)));
    }

    /**
     * `kill_all_jobs`: kill every registered job, in registry order.  Every
     * job left in the registry afterwards is finished.
     */
    method KillAllJobs() returns (js: seq<Job>)
      requires Valid()
      modifies this`jobs, this`lastNumPrintedLines, broker`published, jobs`state
      ensures js == old(jobs)
      ensures Valid() && IsSuffix(jobs, js)
      ensures States(js) == AfterKills(old(States(js)))
      ensures forall i :: 0 <= i < |jobs| ==> jobs[i].Finished()
      ensures broker.published == old(broker.published) + old(KillOrders(js))
    {
      js := jobs;
      ghost var ss := States(js);
      assert forall k, m :: 0 <= k < m < |js| ==> js[k] != js[m] by {
        forall k, m | 0 <= k < m < |js|
          ensures js[k] != js[m]
        {
          assert js[k].id != js[m].id;
        }
      }
      KillEach(js);
      RegistrySuffix(jobs, js, this);
      forall i | 0 <= i < |jobs|
        ensures jobs[i].Finished()
      {
        KillIsIdempotent(ss[|js| - |jobs| + i]);
      }
    }
  }
}
