/**
 * The slave: its tags, its table of runners (one per job id), how it
 * acts on control messages, and the reports a runner sends back.  The
 * runner threads are opaque handles; running the payload in a child
 * process is not part of this model.
 */
module SlaveNode {
  import opened Wire
  import opened Bus
  import opened Tags
  import opened Progress

  /** The runner thread of one job: the slot it took and the order it runs. */
  datatype Runner = Runner(workerIndex: int, numWorkers: int, order: Order)

  /**
   * Slot admission: `counter` is the job's counter before this slave's
   * increment, so it is the slave's worker index; the slave runs the job
   * when that index is below the requested worker count.
   */
  predicate Admitted(counter: int, numWorkers: Option<int>): (r: bool)
    ensures numWorkers.None? ==> !r
    ensures r ==> counter + 1 <= numWorkers.value
  {
    numWorkers.Some? && counter < numWorkers.value
  }

  /** The slots below an admitted one are admitted too: admission is a prefix of the counter. */
  lemma AdmittedBelow(counter: int, lower: int, numWorkers: Option<int>)
    requires lower <= counter && Admitted(counter, numWorkers)
    ensures Admitted(lower, numWorkers)
  {
  }

  /**
   * The worker indices handed out when n dispatch messages for a job with
   * k workers reach slaves one after another, the counter starting at
   * `counter`.
   */
  function AdmittedIndices(counter: int, k: int, n: nat): seq<int>
    decreases n
  {
    if n == 0 then []
    else (if Admitted(counter, Some(k)) then [counter] else []) + AdmittedIndices(counter + 1, k, n - 1)
  }

  /** One more dispatch adds its slot at the end, when that slot is admitted. */
  lemma {:induction false} AdmittedIndicesSnoc(counter: int, k: int, n: nat)
    ensures AdmittedIndices(counter, k, n + 1) ==
            AdmittedIndices(counter, k, n) + (if Admitted(counter + n, Some(k)) then [counter + n] else [])
    decreases n
  {
    if n > 0 {
      AdmittedIndicesSnoc(counter + 1, k, n - 1);
      var head := if Admitted(counter, Some(k)) then [counter] else [];
      var last := if Admitted(counter + n, Some(k)) then [counter + n] else [];
      assert head + (AdmittedIndices(counter + 1, k, n - 1) + last) ==
             (head + AdmittedIndices(counter + 1, k, n - 1)) + last;
    }
  }

  function Min(a: int, b: int): int {
    if a < b then a else b
  }

  /** The admitted indices are consecutive from the counter, and there are min(n, k - counter) of them. */
  lemma {:induction false} AdmittedIndicesAreConsecutive(counter: int, k: int, n: nat)
    ensures |AdmittedIndices(counter, k, n)| == if k <= counter then 0 else Min(n, k - counter)
    ensures forall i :: 0 <= i < |AdmittedIndices(counter, k, n)| ==> AdmittedIndices(counter, k, n)[i] == counter + i
    decreases n
  {
    if n > 0 {
      AdmittedIndicesAreConsecutive(counter + 1, k, n - 1);
    }
  }

  /**
   * From a fresh counter, n messages for a k-worker job admit exactly
   * min(n, k) runners, with indices 0 .. min(n, k) - 1.
   */
  lemma AdmissionFromZero(k: nat, n: nat)
    ensures |AdmittedIndices(0, k, n)| == Min(n, k)
    ensures forall i :: 0 <= i < |AdmittedIndices(0, k, n)| ==> AdmittedIndices(0, k, n)[i] == i
  {
    AdmittedIndicesAreConsecutive(0, k, n);
  }

  /**
   * A job that passed the worker check, sent to the workers that were
   * counted, has every one of its slots 0 .. k - 1 taken, and no more.
   */
  lemma QuorumFillsEverySlot(requested: Option<int>, available: nat)
    requires ResolveNumWorkers(requested, available).Ok?
    ensures var k := ResolveNumWorkers(requested, available).value;
            && |AdmittedIndices(0, k, available)| == (if k < 0 then 0 else k)
            && forall i :: 0 <= i < |AdmittedIndices(0, k, available)| ==> AdmittedIndices(0, k, available)[i] == i
  {
    var k := ResolveNumWorkers(requested, available).value;
    AdmittedIndicesAreConsecutive(0, k, available);
  }

  /**
   * A slave's runner table after a dispatch `order` that took slot `index`:
   * when admitted, the job's runner is replaced by one for that slot.
   */
  function AfterDispatch(runners: map<string, Runner>, index: int, order: Order): (r: map<string, Runner>)
    requires order.Dispatch?
    ensures r.Keys == if Admitted(index, order.numWorkers) then runners.Keys + {order.id} else runners.Keys
    ensures Admitted(index, order.numWorkers) ==> r[order.id].workerIndex == index
    ensures forall id :: id in runners && id != order.id ==> r[id] == runners[id]
  {
    if Admitted(index, order.numWorkers)
    then runners[order.id := Runner(index, order.numWorkers.value, order)]
    else runners
  }

  /**
   * Does a message with these `tags` concern a slave with tags `own`?  An
   * untagged message concerns every slave; a tagged one only slaves that
   * share a tag with it, so a slave without tags of its own ignores it.
   */
  predicate Concerns(own: seq<string>, tags: Option<seq<string>>): (r: bool)
    ensures tags.None? ==> r
    ensures own == [] ==> (r <==> tags.None?)
    ensures tags == Some([]) ==> !r
    ensures forall t :: t in own && tags.Some? && t in tags.value ==> r
  {
    tags.None? || exists t :: t in own && t in tags.value
  }

  /** The `done` report of a runner: the exit status, and the output only on failure. */
  function DonePayload(status: int, output: string): (r: Report)
    ensures r.Done? && r.status == status
    ensures r.output.Some? <==> status != 0
    ensures status != 0 ==> r.output == Some(output)
  {
    Done(status, if status != 0 then Some(output) else None)
  }

  /**
   * A runner's `done` report, delivered to the job named by its channel:
   * a failure fails the job and hands it the runner's output; a success
   * counts one completion and leaves the output alone.
   */
  lemma DoneReportReachesJob(id: string, s: JobState, numWorkers: Option<int>, status: int, output: string)
    requires s.status != Failed
    ensures JobIdOfChannel(ProgressChannel(id)) == Some(id)
    ensures status != 0 ==>
              OnReport(s, numWorkers, DonePayload(status, output)) == s.(status := Failed, output := Some(output))
    ensures status == 0 ==>
              && OnReport(s, numWorkers, DonePayload(status, output)).numCompleted == s.numCompleted + 1
              && OnReport(s, numWorkers, DonePayload(status, output)).output == s.output
  {
    ProgressChannelRoundTrip(id);
  }

  class Slave {
    const broker: Broker
    const tags: seq<string>
    var runnerThreads: map<string, Runner>

    /** A slave configured with a comma-separated tag list (none when absent). */
    constructor (broker: Broker, tagList: Option<string>)
      ensures this.broker == broker
      ensures tags == SplitTags(tagList.GetOr(""))
      ensures runnerThreads == map[]
    {
      this.broker := broker;
      tags := SplitTags(tagList.GetOr(""));
      runnerThreads := map[];
    }

    /** The channels `listen` subscribes to. */
    function Channels(): (r: seq<string>)
      ensures forall t :: ControlChannel(t) in r <==> t in tags || t == AllTag
    {
      forall t ensures ControlChannel(t) in ListenChannels(tags) <==> t in tags || t == AllTag {
        ListensOn(tags, t);
      }
      ListenChannels(tags)
    }

    /** `kill_job`: forget the runner of `id`, if there is one. */
    method KillJob(id: string)
      modifies this
      ensures runnerThreads == old(runnerThreads) - {id}
    {
      runnerThreads := runnerThreads - {id};
    }

    /** `kill_all_jobs`: forget every runner, one job id at a time. */
    method KillAllJobs()
      modifies this
      ensures runnerThreads == map[]
    {
      var pending := runnerThreads.Keys;
      while pending != {}
        invariant runnerThreads.Keys == pending
        decreases pending
      {
        var id :| id in pending;
        KillJob(id);
        pending := pending - {id};
      }
      assert runnerThreads.Keys == {};
      assert runnerThreads == map[];
    }

    /**
     * `process_message`: drop messages for other tags; `killall` and
     * `kill` forget runners; any dispatch takes the next slot of the job's
     * counter and, when admitted, replaces the job's runner by a new one.
     */
    method ProcessMessage(msg: ControlMessage)
      modifies this, broker
      ensures broker.published == old(broker.published) && broker.subscriptions == old(broker.subscriptions)
      ensures !Concerns(tags, msg.tags) ==>
                runnerThreads == old(runnerThreads) && broker.counters == old(broker.counters)
      ensures Concerns(tags, msg.tags) && msg.order.KillAll? ==>
                runnerThreads == map[] && broker.counters == old(broker.counters)
      ensures Concerns(tags, msg.tags) && msg.order.Kill? ==>
                runnerThreads == old(runnerThreads) - {msg.order.id} && broker.counters == old(broker.counters)
      ensures Concerns(tags, msg.tags) && msg.order.Dispatch? ==>
                var key := CounterKey(msg.order.id);
                var index := old(broker.Counter(key));
                && broker.counters == old(broker.counters)[key := index + 1]
                && runnerThreads == AfterDispatch(old(runnerThreads), index, msg.order)
    {
      if !Concerns(tags, msg.tags) {
        return;
      }
      match msg.order
      case KillAll =>
        KillAllJobs();
      case Kill(id) =>
        KillJob(id);
      case Dispatch(id, numWorkers, _) =>
        var count := broker.Incr(CounterKey(id));
        var workerIndex := count - 1;
        if Admitted(workerIndex, numWorkers) {
          KillJob(id);
          runnerThreads := runnerThreads[id := Runner(workerIndex, numWorkers.value, msg.order)];
        }
    }

    /** A runner announces itself on the job's progress channel before running. */
    method ReportStart(id: string)
      modifies broker
      ensures broker.published == old(broker.published) + [Publication(ProgressChannel(id), Progress(Start))]
      ensures broker.counters == old(broker.counters) && broker.subscriptions == old(broker.subscriptions)
    {
      broker.Publish(ProgressChannel(id), Progress(Start));
    }

    /**
     * The end of a runner: with an exit status, report `done` and forget
     * its own record; without one (the process died of a signal), do
     * neither.
     */
    method ReportDone(id: string, status: Option<int>, output: string)
      modifies this, broker
      ensures status.None? ==> runnerThreads == old(runnerThreads) && broker.published == old(broker.published)
      ensures status.Some? ==>
                && broker.published == old(broker.published) +
                     [Publication(ProgressChannel(id), Progress(DonePayload(status.value, output)))]
                && runnerThreads == old(runnerThreads) - {id}
      ensures broker.counters == old(broker.counters) && broker.subscriptions == old(broker.subscriptions)
    {
      if status.None? {
        return;
      }
      broker.Publish(ProgressChannel(id), Progress(DonePayload(status.value, output)));
      KillJob(id);
    }
  }

  /**
   * One dispatch message delivered to each of `slaves` in turn.  The
   * counter increments are atomic, so every delivery happens in some such
   * order.  Slave i takes slot c + i of the job's counter, where c is the
   * counter before; it runs the job exactly when that slot is admitted.  The
   * slots admitted are `AdmittedIndices`.
   */
  method DispatchToSlaves(slaves: seq<Slave>, broker: Broker, msg: ControlMessage) returns (admitted: seq<int>)
    requires msg.order.Dispatch?
    requires forall i :: 0 <= i < |slaves| ==> slaves[i].broker == broker && Concerns(slaves[i].tags, msg.tags)
    requires forall i, j :: 0 <= i < j < |slaves| ==> slaves[i] != slaves[j]
    modifies slaves, broker
    ensures var c := old(broker.Counter(CounterKey(msg.order.id)));
            && broker.Counter(CounterKey(msg.order.id)) == c + |slaves|
            && (msg.order.numWorkers.Some? ==> admitted == AdmittedIndices(c, msg.order.numWorkers.value, |slaves|))
            && (msg.order.numWorkers.None? ==> admitted == [])
            && forall i :: 0 <= i < |slaves| ==>
                 slaves[i].runnerThreads == AfterDispatch(old(slaves[i].runnerThreads), c + i, msg.order)
    ensures broker.published == old(broker.published) && broker.subscriptions == old(broker.subscriptions)
  {
    var key, nw := CounterKey(msg.order.id), msg.order.numWorkers;
    ghost var c := broker.Counter(key);
    admitted := [];
    for i := 0 to |slaves|
      invariant broker.Counter(key) == c + i
      invariant broker.published == old(broker.published) && broker.subscriptions == old(broker.subscriptions)
      invariant nw.Some? ==> admitted == AdmittedIndices(c, nw.value, i)
      invariant nw.None? ==> admitted == []
      invariant forall j :: 0 <= j < i ==>
                  slaves[j].runnerThreads == AfterDispatch(old(slaves[j].runnerThreads), c + j, msg.order)
      invariant forall j :: i <= j < |slaves| ==> slaves[j].runnerThreads == old(slaves[j].runnerThreads)
    {
      var index := broker.Counter(key);
      slaves[i].ProcessMessage(msg);
      if Admitted(index, nw) {
        admitted := admitted + [index];
      }
      if nw.Some? {
        AdmittedIndicesSnoc(c, nw.value, i);
      }
    }
  }
}
