/** The run configuration `main` resolves from its command line before the
    clock starts, in the order `main` does it: the prefixed protocol name, the
    stop time, the stack plan, the congestion-control setting, the buffer
    size, the queue discipline, then the applications and the ss probes. */
module RunConfig {
  import opened Errors
  import opened BufferSizing
  import opened QueueDiscipline
  import opened StackSelection
  import opened CongestionControl
  import opened SsProbes

  /** The command-line values, already parsed: rates in bits/s, times in ns. */
  datatype Options = Options(
    pcap: bool,
    stack: string,
    transportProt: string,
    bandwidthBps: nat,         // bottleneck bandwidth used for sizing
    delayNs: nat,              // bottleneck delay used for sizing
    mtuBytes: nat,
    accessBandwidthBps: nat,
    accessDelayNs: nat,
    startNs: int,
    tracing: bool,
    durationNs: int,
    queueDiscType: string)

  /** The values `main` starts from when no flag is given. */
  const Defaults: Options := Options(
    true, "linux", "cubic", 2_000_000, 10_000, 400, 10_000_000, 45_000_000,
    10_100_000_000, true, 10_000_000_000, "ns3::PfifoFastQueueDisc")

  datatype Link = Link(dataRateBps: nat, delayNs: nat)

  /** The two point-to-point links are always built with these values. */
  const AccessLink: Link := Link(150_000_000, 5_000_000)
  const BottleneckLink: Link := Link(50_000_000, 1_000_000)

  /** A BulkSend or PacketSink application. */
  datatype App = App(node: nat, socketFactory: string, startNs: int, stopNs: int)

  /** The fields written to config.txt at the end of the run. */
  datatype ConfigRecord = ConfigRecord(useEcn: bool, queueDiscType: string, transportProt: string, stopNs: int)

  datatype Run = Run(
    stack: StackPlan,
    stackWarning: bool,
    congestion: CongestionSetting,
    accessLink: Link,
    bottleneckLink: Link,
    maxSizes: MaxSizeDefaults,
    queueDisc: QueueDiscKind,
    sender: App,
    sink: App,
    simulatorStopNs: int,
    ssProbes: seq<SsProbe>,
    pcap: bool,
    record: ConfigRecord)

  /** The sizing input: the command-line bandwidths and delays. */
  function SizingBytes(o: Options): nat {
    BufferBytes(o.accessBandwidthBps, o.bandwidthBps, o.accessDelayNs, o.delayNs)
  }

  /** The congestion-control step succeeds: in "ns3" mode the name is the
      WestwoodPlus alias or registered; in "linux" mode it has at least 3
      characters; any other stack never fails here. */
  predicate ProtocolResolves(o: Options, registry: set<string>) {
    && (IsNs3(o.stack) ==> o.transportProt == "TcpWestwoodPlus" || Qualify(o.transportProt) in registry)
    && (IsLinux(o.stack) ==> |o.transportProt| >= 3)
  }

  predicate QueueNameValid(name: string) {
    name == PfifoFastName || name == CoDelName
  }

  /** Both applications run on the flow window, whose end is also the
      simulator's stop, with the socket factory of the leaves' stack. */
  function Resolve(o: Options, registry: set<string>): (r: Result<Run>)
    ensures r.Ok? ==> r.value.sender.startNs == r.value.sink.startNs == o.startNs
    ensures r.Ok? ==> r.value.sender.stopNs == r.value.sink.stopNs == r.value.simulatorStopNs == o.startNs + o.durationNs
    ensures r.Ok? ==> r.value.sender.node == SenderNode && r.value.sink.node == ReceiverNode
    ensures r.Ok? ==> r.value.sender.socketFactory == r.value.sink.socketFactory
                      == (if IsLinux(o.stack) then LinuxSocketFactory else Ns3SocketFactory)
  {
    var transportProt := Qualify(o.transportProt);
    var stopNs := o.startNs + o.durationNs;
    var plan := SelectStack(o.stack);
    var congestion :- SelectCongestionControl(o.stack, transportProt, registry);
    var maxSizes :- MaxSizes(SizingBytes(o), o.mtuBytes);
    var kind :- ParseQueueDisc(o.queueDiscType);
    Ok(Run(
      plan,
      !StackAvailable(o.stack),
      congestion,
      AccessLink,
      BottleneckLink,
      maxSizes,
      kind,
      App(SenderNode, plan.socketFactory, o.startNs, stopNs),
      App(ReceiverNode, plan.socketFactory, o.startNs, stopNs),
      stopNs,
      ProbeSchedule(SenderNode, PollTimes(o.startNs, stopNs), o.stack),
      o.pcap,
      ConfigRecord(true, o.queueDiscType, transportProt, stopNs)))
  }

  lemma QualifiedAlias(name: string)
    ensures Qualify(name) == WestwoodPlusName <==> name == "TcpWestwoodPlus"
  {
  }

  /** Resolution fails exactly when one of the three checks fails, and it
      reports the first failure in `main`'s order: the protocol name, then the
      division by a zero MTU, then the queue-disc name. */
  lemma {:induction false} ResolveOutcome(o: Options, registry: set<string>)
    ensures Resolve(o, registry).Ok?
        <==> ProtocolResolves(o, registry) && o.mtuBytes > 0 && QueueNameValid(o.queueDiscType)
    ensures !ProtocolResolves(o, registry) && IsNs3(o.stack) ==>
              Resolve(o, registry) == Err(TypeIdNotFound(Qualify(o.transportProt)))
    ensures !ProtocolResolves(o, registry) && IsLinux(o.stack) ==>
              Resolve(o, registry) == Err(SubstrOutOfRange(KernelCut, |o.transportProt| + 5))
    ensures ProtocolResolves(o, registry) && o.mtuBytes == 0 ==>
              Resolve(o, registry) == Err(DivisionByZero)
    ensures ProtocolResolves(o, registry) && o.mtuBytes > 0 && !QueueNameValid(o.queueDiscType) ==>
              Resolve(o, registry) == Err(QueueNotRecognized(o.queueDiscType))
  {
  }

  /** What a resolved run holds: the hard-coded links whatever the command
      line says, the limits sized from the command-line values, the chosen
      discipline, both applications on the flow window whose end is also the
      simulator's stop, and the ss probes only under "linux". */
  lemma {:induction false} ResolvedRun(o: Options, registry: set<string>)
    requires Resolve(o, registry).Ok?
    ensures var run := Resolve(o, registry).value;
            var stopNs := o.startNs + o.durationNs;
            && run.stack == SelectStack(o.stack)
            && run.congestion == SelectCongestionControl(o.stack, Qualify(o.transportProt), registry).value
            && run.accessLink == AccessLink && run.bottleneckLink == BottleneckLink
            && run.maxSizes.coDel == Bytes(SizingBytes(o))
            && run.maxSizes.pfifoFast == Packets(SizingBytes(o) / o.mtuBytes)
            && TypeName(run.queueDisc) == o.queueDiscType
            && run.sender == App(SenderNode, run.stack.socketFactory, o.startNs, stopNs)
            && run.sink == App(ReceiverNode, run.stack.socketFactory, o.startNs, stopNs)
            && run.simulatorStopNs == stopNs
            && run.record == ConfigRecord(true, o.queueDiscType, Qualify(o.transportProt), stopNs)
            && run.pcap == o.pcap
            && (run.stackWarning <==> !StackAvailable(o.stack))
            && (run.ssProbes != [] <==> IsLinux(o.stack) && o.startNs < stopNs)
            && forall k :: 0 <= k < |run.ssProbes| ==>
                 run.ssProbes[k].node == SenderNode && run.ssProbes[k].at == o.startNs + k * PollStepNs
                 && o.startNs <= run.ssProbes[k].at < stopNs
  {
    var stopNs := o.startNs + o.durationNs;
    var transportProt := Qualify(o.transportProt);
    var plan := SelectStack(o.stack);
    var congestion := SelectCongestionControl(o.stack, transportProt, registry);
    var maxSizes := MaxSizes(SizingBytes(o), o.mtuBytes);
    var kind := ParseQueueDisc(o.queueDiscType);
    assert congestion.Ok? && maxSizes.Ok? && kind.Ok?;
    var probes := ProbeSchedule(SenderNode, PollTimes(o.startNs, stopNs), o.stack);
    assert Resolve(o, registry).value == Run(
      plan, !StackAvailable(o.stack), congestion.value, AccessLink, BottleneckLink,
      maxSizes.value, kind.value,
      App(SenderNode, plan.socketFactory, o.startNs, stopNs),
      App(ReceiverNode, plan.socketFactory, o.startNs, stopNs),
      stopNs, probes, o.pcap,
      ConfigRecord(true, o.queueDiscType, transportProt, stopNs));
    PollProbes(SenderNode, o.startNs, stopNs, o.stack);
  }

  /** A stack value other than "ns3" or "linux" (even "Linux") does not stop
      the run: it only warns, uses the ns-3 sockets and internet stack on every
      node, leaves congestion control unconfigured and schedules no probes. */
  lemma UnknownStackStillRuns(o: Options, registry: set<string>)
    requires !StackAvailable(o.stack)
    requires o.mtuBytes > 0 && QueueNameValid(o.queueDiscType)
    ensures var r := Resolve(o, registry);
            r.Ok? && r.value.stackWarning && r.value.congestion == NotConfigured
            && r.value.stack.socketFactory == Ns3SocketFactory
            && r.value.stack.nodeStacks == [InternetStack, InternetStack, InternetStack]
            && r.value.ssProbes == []
  {
  }

  /** The built links and the sizing inputs are unrelated: two command lines
      that differ only in their bandwidths and delays build the same links. */
  lemma LinksIgnoreCommandLine(o1: Options, o2: Options, registry: set<string>)
    requires Resolve(o1, registry).Ok? && Resolve(o2, registry).Ok?
    ensures Resolve(o1, registry).value.accessLink == Resolve(o2, registry).value.accessLink
    ensures Resolve(o1, registry).value.bottleneckLink == Resolve(o2, registry).value.bottleneckLink
  {
  }

  /** With the default command line the kernel runs "ic" (from "cubic"), the
      buffer is 22505 bytes or 56 packets, although sizing the built links
      would have given 75000 bytes. */
  lemma {:induction false} DefaultRun(registry: set<string>)
    ensures var r := Resolve(Defaults, registry);
            r.Ok?
            && r.value.congestion == KernelSysctls([SenderNode, ReceiverNode], [Sysctl(ForwardingKey, "1"), Sysctl(CongestionKey, "ic")])
            && r.value.queueDisc == PfifoFast
            && r.value.maxSizes == MaxSizeDefaults(Packets(56), Bytes(22505))
            && r.value.stack.socketFactory == LinuxSocketFactory
            && BufferBytes(AccessLink.dataRateBps, BottleneckLink.dataRateBps, AccessLink.delayNs, BottleneckLink.delayNs) == 75000
  {
    KernelNameExamples();
    DefaultBufferBytes();
    DefaultMaxSizes();
  }
}
