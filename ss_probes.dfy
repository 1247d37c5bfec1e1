/** The socket-state poller: GetSSStats launches `ss -a -e -i` on a node at a
    given time when the stack is "linux" and does nothing otherwise; `main`
    calls it at every 0.1 s step from the flows' start up to their stop. */
module SsProbes {
  import opened Errors
  import opened StackSelection

  const PollStepNs: nat := 100_000_000
  const SsBinary: string := "ss"
  const SsStackSize: nat := 1_048_576   // 1 << 20
  const SsArgs: seq<string> := ["-a", "-e", "-i"]

  /** One launch of the ss binary on a node at a virtual time. */
  datatype SsProbe = SsProbe(node: nat, at: int, binary: string, stackSize: nat, args: seq<string>)

  function SsAt(node: nat, at: int): SsProbe {
    SsProbe(node, at, SsBinary, SsStackSize, SsArgs)
  }

  /** A probe only under the kernel stack; a no-op for any other value. */
  function GetSSStats(node: nat, at: int, stack: string): (p: Option<SsProbe>)
    ensures p.Some? <==> IsLinux(stack)
    ensures p.Some? ==> p.value.node == node && p.value.at == at && p.value.binary == SsBinary
    ensures p.Some? ==> p.value.stackSize == SsStackSize && p.value.args == SsArgs
  {
    if IsLinux(stack) then Some(SsAt(node, at)) else None
  }

  /** The times the poll loop visits: start, start + step, ... while below stop. */
  function PollTimes(start: int, stop: int): (ts: seq<int>)
    ensures ts == [] <==> stop <= start
    ensures forall k :: 0 <= k < |ts| ==> start <= ts[k] < stop
    decreases stop - start
  {
    if start < stop then [start] + PollTimes(start + PollStepNs, stop) else []
  }

  /** The poll times are evenly spaced from start, all inside [start, stop),
      and there are as many as steps needed to reach stop. */
  lemma {:induction false} PollTimesShape(start: int, stop: int)
    ensures var ts := PollTimes(start, stop);
            |ts| == (if start < stop then (stop - start + PollStepNs - 1) / PollStepNs else 0)
            && forall k :: 0 <= k < |ts| ==> ts[k] == start + k * PollStepNs && start <= ts[k] < stop
    decreases stop - start
  {
    if start < stop {
      PollTimesShape(start + PollStepNs, stop);
    }
  }

  /** The probes the loop leaves scheduled for the given times. */
  function ProbeSchedule(node: nat, times: seq<int>, stack: string): (ps: seq<SsProbe>)
    ensures IsLinux(stack) ==> |ps| == |times| && forall k :: 0 <= k < |times| ==> ps[k] == SsAt(node, times[k])
    ensures !IsLinux(stack) ==> ps == []
  {
    if times == [] then []
    else
      var head := match GetSSStats(node, times[0], stack) case Some(p) => [p] case None => [];
      head + ProbeSchedule(node, times[1..], stack)
  }

  /** Scheduling one more time in front adds its probe, if any, in front. */
  lemma ProbeScheduleCons(node: nat, at: int, rest: seq<int>, stack: string)
    ensures ProbeSchedule(node, [at] + rest, stack)
         == (if IsLinux(stack) then [SsAt(node, at)] else []) + ProbeSchedule(node, rest, stack)
  {
    assert ([at] + rest)[1..] == rest;
  }

  /** The polling loop: one GetSSStats call per 0.1 s step in [start, stop). */
  method SchedulePolls(node: nat, start: int, stop: int, stack: string) returns (probes: seq<SsProbe>)
    ensures probes == ProbeSchedule(node, PollTimes(start, stop), stack)
  {
    probes := [];
    var i := start;
    while i < stop
      invariant probes + ProbeSchedule(node, PollTimes(i, stop), stack) == ProbeSchedule(node, PollTimes(start, stop), stack)
      decreases stop - i
    {
      var rest := PollTimes(i + PollStepNs, stop);
      assert PollTimes(i, stop) == [i] + rest;
      ProbeScheduleCons(node, i, rest, stack);
      var p := GetSSStats(node, i, stack);
      if p.Some? {
        probes := probes + [p.value];
      }
      i := i + PollStepNs;
    }
  }

  /** Under "linux" there is one probe per step, at the step's time; under any
      other value the loop schedules nothing. */
  lemma PollProbes(node: nat, start: int, stop: int, stack: string)
    ensures var ps := ProbeSchedule(node, PollTimes(start, stop), stack);
            (IsLinux(stack) && start < stop <==> ps != [])
            && forall k :: 0 <= k < |ps| ==> ps[k].at == start + k * PollStepNs && start <= ps[k].at < stop
  {
    PollTimesShape(start, stop);
  }
}
