/** Metric kinds and states, their text forms, and the per-kind worker: its
    task handle, its control channel and the sampling loop that the task runs
    (src/metric.rs). */
module Metric {
  import opened Wrappers
  import opened Text
  import opened Seqs
  import Q = Queue

  /** `MetricType`; the source's `MetricType::None` is `NoMetric` here. */
  datatype MetricType = CPU | Memory | IO | NoMetric

  datatype MetricState = Initialized | Running | Stopped | Disabled

  /** A kind that has a collector, a configuration and a state. */
  predicate IsKnown(k: MetricType) {
    k != NoMetric
  }

  /** `get_metric_types`: the kinds in registry order. */
  function MetricTypes(): (ks: seq<MetricType>)
    ensures |ks| == 3 && NoMetric !in ks
    ensures forall i :: 0 <= i < |ks| ==> IsKnown(ks[i])
    ensures forall k :: IsKnown(k) ==> k in ks
  {
    [CPU, Memory, IO]
  }

  /** Position of a known kind in `MetricTypes()`. */
  function KindIndex(k: MetricType): (i: nat)
    requires IsKnown(k)
    ensures i < 3 && MetricTypes()[i] == k
  {
    match k
    case CPU => 0
    case Memory => 1
    case IO => 2
  }

  function MetricToStr(k: MetricType): (s: string)
    ensures StrToMetric(s) == k
  {
    match k
    case CPU => "cpu"
    case Memory => "memory"
    case IO => "io"
    case NoMetric => "none"
  }

  /** Every string that does not name a kind maps to `NoMetric`. */
  function StrToMetric(s: string): (k: MetricType)
    ensures IsKnown(k) <==> s in {"cpu", "memory", "io"}
  {
    match s
    case "cpu" => CPU
    case "memory" => Memory
    case "io" => IO
    case _ => NoMetric
  }

  function StateToStr(st: MetricState): (s: string)
    ensures StrToState(s) == Some(st)
  {
    match st
    case Initialized => "initialized"
    case Stopped => "stopped"
    case Running => "running"
    case Disabled => "disabled"
  }

  function StrToState(s: string): (r: Option<MetricState>)
    ensures r.Some? <==> s in {"initialized", "stopped", "running", "disabled"}
  {
    match s
    case "initialized" => Some(Initialized)
    case "stopped" => Some(Stopped)
    case "running" => Some(Running)
    case "disabled" => Some(Disabled)
    case _ => None
  }

  /** The OS-backed collectors, one per known kind. */
  datatype Collector = CpuInfoCollector | MemoryInfoCollector | IOInfoCollector {
    function Kind(): MetricType {
      match this
      case CpuInfoCollector => CPU
      case MemoryInfoCollector => Memory
      case IOInfoCollector => IO
    }
  }

  /** `get_metric_collector`: a collector for exactly the known kinds. */
  function GetMetricCollector(k: MetricType): (r: Option<Collector>)
    ensures r.None? <==> k == NoMetric
    ensures r.Some? ==> r.value.Kind() == k
  {
    match k
    case CPU => Some(CpuInfoCollector)
    case Memory => Some(MemoryInfoCollector)
    case IO => Some(IOInfoCollector)
    case NoMetric => None
  }

  /** A spawned sampling task, remembered by the rate it was spawned with. */
  datatype TaskHandle = TaskHandle(startRate: u8)

  /** Messages a worker's channel may hold while no `stop` is on its way:
      only rates, as `set_refresh_rate` sends them. */
  predicate ValidPending(pending: seq<string>) {
    forall i :: 0 <= i < |pending| ==> ParseU8(pending[i]).Some?
  }

  function StartedReply(k: MetricType, rate: u8): string {
    "Metric '" + MetricToStr(k) + "' started with rate '" + U8ToString(rate) + "';"
  }

  function StoppedReply(k: MetricType): string {
    "Metric '" + MetricToStr(k) + "' stopped;"
  }

  /** What is left on a channel once a task has read it up to and including
      the first "stop" (the task reads one message per cycle and exits on
      "stop"). */
  function AfterStop(msgs: seq<string>): (rest: seq<string>)
    requires "stop" in msgs
    ensures |rest| < |msgs|
    ensures rest == msgs[|msgs| - |rest|..]
  {
    if msgs[0] == "stop" then msgs[1..] else AfterStop(msgs[1..])
  }

  /** Joining a task after sending "stop" behind a channel of rates leaves the
      channel empty. */
  lemma {:induction false} AfterStopOfValidPending(pending: seq<string>)
    requires ValidPending(pending)
    ensures AfterStop(pending + ["stop"]) == []
  {
    if pending != [] {
      assert ParseU8(pending[0]).Some?;
      assert (pending + ["stop"])[1..] == pending[1..] + ["stop"];
      AfterStopOfValidPending(pending[1..]);
    }
  }

  /** The worker of one kind (`Metric`): the handle of its sampling task, if one
      runs, and the messages sent on its control channel that no task is known
      to have read (a task reads them asynchronously; the control loop knows
      they are read only once it has joined the task). */
  class Metric {
    const metricType: MetricType
    var handle: Option<TaskHandle>
    var pending: seq<string>

    constructor (metricType: MetricType)
      ensures this.metricType == metricType
      ensures handle == None && pending == []
    {
      this.metricType := metricType;
      handle := None;
      pending := [];
    }

    method SendCommand(command: string)
      modifies this
      ensures pending == old(pending) + [command]
      ensures handle == old(handle)
    {
      pending := pending + [command];
    }

    /** Spawns a sampling task with `refreshRate`; a handle already present is
        overwritten. The channel is left as it is: the new task reads whatever
        is still on it. */
    method Start(refreshRate: u8) returns (reply: string)
      modifies this
      ensures handle == Some(TaskHandle(refreshRate))
      ensures pending == old(pending)
      ensures reply == StartedReply(metricType, refreshRate)
    {
      handle := Some(TaskHandle(refreshRate));
      reply := StartedReply(metricType, refreshRate);
    }

    /** Sends "stop", takes the handle (which must be present: the source
        unwraps it) and joins the task, which has then read the channel up to
        that "stop". */
    method Stop() returns (reply: string)
      requires handle.Some?
      requires ValidPending(pending)
      modifies this
      ensures handle == None && pending == []
      ensures reply == StoppedReply(metricType)
    {
      SendCommand("stop");
      var task := handle.value;
      handle := None;
      AfterStopOfValidPending(old(pending));
      pending := AfterStop(pending);
      reply := StoppedReply(metricType);
    }

    /** Sends the new rate, in decimal, for the task to pick up. */
    method SetRefreshRate(refreshRate: u8)
      modifies this
      ensures pending == old(pending) + [U8ToString(refreshRate)]
      ensures ParseU8(pending[|pending| - 1]) == Some(refreshRate)
      ensures handle == old(handle)
    {
      SendCommand(U8ToString(refreshRate));
      U8ToStringParses(refreshRate);
    }
  }

  /** Control messages as the sampling loop sees them: the result of each
      cycle's `try_recv`, `None` when the channel had nothing. */
  predicate ControlValid(polls: seq<Option<string>>) {
    forall j :: 0 <= j < |polls| && polls[j].Some? && polls[j].value != "stop" ==>
      ParseU8(polls[j].value).Some?
  }

  /** The cycle at which the loop reads its first "stop". */
  function FirstStop(polls: seq<Option<string>>): (i: nat)
    requires Some("stop") in polls
    ensures i < |polls| && polls[i] == Some("stop")
    ensures forall j :: 0 <= j < i ==> polls[j] != Some("stop")
  {
    if polls[0] == Some("stop") then 0 else 1 + FirstStop(polls[1..])
  }

  /** The rate in force after the loop has handled `polls` without meeting
      "stop": the last rate received, or the starting rate. ("stop" is not a
      number, so it leaves the rate alone.) */
  function RateAfter(rate: u8, polls: seq<Option<string>>): u8 {
    if polls == [] then rate
    else
      var last := polls[|polls| - 1];
      if last.Some? && ParseU8(last.value).Some? then ParseU8(last.value).value
      else RateAfter(rate, polls[..|polls| - 1])
  }

  /** The rate in force is the starting rate or one that was received, and
      it is the starting rate while nothing has been received. */
  lemma {:induction false} RateAfterReceived(rate: u8, polls: seq<Option<string>>)
    ensures var r := RateAfter(rate, polls);
      r == rate || exists j :: 0 <= j < |polls| && polls[j].Some? && ParseU8(polls[j].value) == Some(r)
    ensures (forall j :: 0 <= j < |polls| ==> polls[j].None?) ==> RateAfter(rate, polls) == rate
  {
    if polls != [] {
      var init := polls[..|polls| - 1];
      RateAfterReceived(rate, init);
      var r := RateAfter(rate, init);
      if r != rate && RateAfter(rate, polls) == r {
        var j :| 0 <= j < |init| && init[j].Some? && ParseU8(init[j].value) == Some(r);
        assert polls[j] == init[j];
      }
      if forall j :: 0 <= j < |polls| ==> polls[j].None? {
        assert forall j :: 0 <= j < |init| ==> init[j] == polls[j];
      }
    }
  }

  /** The items of the first `n` cycles, in cycle order. */
  function Collected(collect: nat -> Q.QueueItem, n: nat): (items: seq<Q.QueueItem>)
    ensures |items| == n
  {
    if n == 0 then [] else Collected(collect, n - 1) + [collect(n - 1)]
  }

  /** Cycle `i` contributes the item collected for it. */
  lemma {:induction false} CollectedAt(collect: nat -> Q.QueueItem, n: nat, i: nat)
    requires i < n
    ensures Collected(collect, n)[i] == collect(i)
  {
    if i < n - 1 {
      CollectedAt(collect, n - 1, i);
    }
  }

  /** One more poll changes the rate exactly when it carries a rate. */
  lemma RateAfterStep(rate: u8, polls: seq<Option<string>>, n: nat)
    requires n < |polls|
    ensures RateAfter(rate, polls[..n + 1]) ==
      if polls[n].Some? && ParseU8(polls[n].value).Some? then ParseU8(polls[n].value).value
      else RateAfter(rate, polls[..n])
  {
    assert polls[..n + 1][..n] == polls[..n];
  }

  /** The sleeps of the first `n` cycles. */
  function Sleeps(rate: u8, polls: seq<Option<string>>, n: nat): (sleeps: seq<u8>)
    requires n <= |polls|
    ensures |sleeps| == n
  {
    if n == 0 then [] else Sleeps(rate, polls, n - 1) + [RateAfter(rate, polls[..n - 1])]
  }

  /** Cycle `j` sleeps for the rate in force after the polls of the cycles
      before it. */
  lemma {:induction false} SleepsAt(rate: u8, polls: seq<Option<string>>, n: nat, j: nat)
    requires j < n <= |polls|
    ensures Sleeps(rate, polls, n)[j] == RateAfter(rate, polls[..j])
  {
    if j < n - 1 {
      SleepsAt(rate, polls, n - 1, j);
    }
  }

  /** `MetricCollector::run`: each cycle enqueues the item collected for it,
      sleeps for the current rate, then reads at most one control message:
      "stop" ends the loop and any other message becomes the rate. The
      collector is the function `collect` (cycle number to item); each cycle's
      sleep is reported in `sleeps`. */
  method Run(polls: seq<Option<string>>, refreshRate: u8, queue: Q.Queue, collect: nat -> Q.QueueItem)
    returns (sleeps: seq<u8>)
    requires Some("stop") in polls
    requires ControlValid(polls)
    modifies queue
    ensures |sleeps| == FirstStop(polls) + 1
    ensures queue.items == old(queue.items) + Collected(collect, |sleeps|)
    ensures sleeps == Sleeps(refreshRate, polls, |sleeps|)
  {
    var stop := FirstStop(polls);
    var rate := refreshRate;
    var cycle := 0;
    var running := true;
    sleeps := [];
    while running
      invariant cycle <= stop + 1
      invariant running <==> cycle <= stop
      invariant queue.items == old(queue.items) + Collected(collect, cycle)
      invariant rate == RateAfter(refreshRate, polls[..cycle])
      invariant sleeps == Sleeps(refreshRate, polls, cycle)
      decreases stop + 1 - cycle
    {
      queue.Enqueue(collect(cycle));
      AppendAssoc(old(queue.items), Collected(collect, cycle), collect(cycle));
      sleeps := sleeps + [rate];
      RateAfterStep(refreshRate, polls, cycle);
      var message := polls[cycle];
      if message == Some("stop") {
        running := false;
      } else if message.Some? {
        rate := ParseU8(message.value).value;
      }
      cycle := cycle + 1;
    }
  }
}
