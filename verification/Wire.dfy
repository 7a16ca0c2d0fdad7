/**
 * The wire protocol of abricot: the names of the bus channels and counter
 * keys, and the messages that travel on them.  JSON objects are represented
 * by datatypes; parsing and printing JSON is not part of this model.
 */
module Wire {

  datatype Option<+T> = None | Some(value: T) {
    function GetOr(default: T): T {
      match this
      case Some(v) => v
      case None => default
    }
  }

  datatype Result<+T, +E> = Ok(value: T) | Err(error: E)

  /** The tag every slave listens on and every unscoped job is sent to. */
  const AllTag: string := "_all_"

  const ControlPrefix: string := "abricot:slave_control:"
  const JobPrefix: string := "abricot:job:"
  const ProgressSuffix: string := ":progress"
  const CounterSuffix: string := ":num_workers"

  /** The permanent channel the master's listener subscribes to first. */
  const DummyChannel: string := "abricot:job:dummy"

  /** Control channel of one tag: dispatch and kill orders go here. */
  function ControlChannel(tag: string): string {
    ControlPrefix + tag
  }

  /** Per-job channel on which slaves report `start` and `done`. */
  function ProgressChannel(id: string): string {
    JobPrefix + id + ProgressSuffix
  }

  /** Per-job atomic counter used to hand out worker slots. */
  function CounterKey(id: string): string {
    JobPrefix + id + CounterSuffix
  }

  /**
   * The job id named by a progress channel, as the anchored pattern
   * `abricot:job:(.*):progress` extracts it; `None` for any other channel.
   */
  function JobIdOfChannel(channel: string): (r: Option<string>)
    ensures r.Some? ==> ProgressChannel(r.value) == channel
    ensures r.None? ==> forall id :: ProgressChannel(id) != channel
  {
    var lo, hi := |JobPrefix|, |channel| - |ProgressSuffix|;
    if lo <= hi && channel[..lo] == JobPrefix && channel[hi..] == ProgressSuffix then
      assert channel == JobPrefix + channel[lo..hi] + ProgressSuffix;
      Some(channel[lo..hi])
    else
      assert forall id :: ProgressChannel(id) != channel by {
        forall id ensures ProgressChannel(id) != channel {
          var c := ProgressChannel(id);
          assert c[..lo] == JobPrefix;
          assert c[|c| - |ProgressSuffix|..] == ProgressSuffix;
        }
      }
      None
  }

  /** A progress channel always names its own job back. */
  lemma ProgressChannelRoundTrip(id: string)
    ensures JobIdOfChannel(ProgressChannel(id)) == Some(id)
  {
    var r := JobIdOfChannel(ProgressChannel(id));
    assert r.Some?;
    assert JobPrefix + r.value + ProgressSuffix == JobPrefix + id + ProgressSuffix;
    assert (JobPrefix + r.value + ProgressSuffix)[|JobPrefix|..|JobPrefix| + |r.value|] == r.value;
  }

  /** The listener's dummy channel belongs to no job. */
  lemma DummyChannelNamesNoJob()
    ensures JobIdOfChannel(DummyChannel) == None
  {
  }

  /** What a slave is told to run. */
  datatype Payload =
    | Script(script: string)        // an inline script, run from a temporary file
    | Exec(args: seq<string>)       // a command line, run directly

  /** The body of a message on a control channel. */
  datatype Order =
    | Dispatch(id: string, numWorkers: Option<int>, payload: Payload)
    | Kill(id: string)
    | KillAll

  /**
   * A control message: its order, plus the optional `tags` list that
   * restricts which slaves act on it.
   */
  datatype ControlMessage = ControlMessage(order: Order, tags: Option<seq<string>>)

  /** A message on a progress channel. */
  datatype Report =
    | Start
    | Done(status: int, output: Option<string>)

  datatype Message = Control(control: ControlMessage) | Progress(report: Report)

  /** One `publish(channel, message)` on the bus. */
  datatype Publication = Publication(channel: string, message: Message)

  /** The fleet-wide kill order the master sends for one job. */
  function KillPublication(id: string): Publication {
    Publication(ControlChannel(AllTag), Control(ControlMessage(Kill(id), None)))
  }

  /** One kill publication per id, in the same order. */
  function KillPublications(ids: seq<string>): (r: seq<Publication>)
    ensures |r| == |ids|
    ensures forall i :: 0 <= i < |ids| ==> r[i] == KillPublication(ids[i])
  {
    if ids == [] then [] else KillPublications(ids[..|ids| - 1]) + [KillPublication(ids[|ids| - 1])]
  }
}
