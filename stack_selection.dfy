/** Which network stack each of the three nodes runs and which socket factory
    the applications use. Node 0 is the sender, node 1 the router, node 2 the
    receiver; nodes 0 and 2 form the "linux" group, node 1 the router group. */
module StackSelection {
  import opened Errors

  const SenderNode: nat := 0
  const RouterNode: nat := 1
  const ReceiverNode: nat := 2
  const NodeCount: nat := 3

  const LinuxSocketFactory: string := "ns3::LinuxTcpSocketFactory"
  const Ns3SocketFactory: string := "ns3::TcpSocketFactory"
  const LinuxFdFactory: string := "ns3::LinuxSocketFdFactory"
  const LinuxLibrary: string := "liblinux.so"

  datatype NodeStack = InternetStack | LinuxStack

  /** The DCE manager's network stack, set only for the kernel stack. */
  datatype DceStack = DceStack(factory: string, library: string)

  datatype StackPlan = StackPlan(socketFactory: string, nodeStacks: seq<NodeStack>, dce: Option<DceStack>)

  /** The comparisons are exact and case-sensitive. */
  predicate IsLinux(stack: string) {
    stack == "linux"
  }

  predicate IsNs3(stack: string) {
    stack == "ns3"
  }

  /** Any value but the two names only prints "is not available". */
  predicate StackAvailable(stack: string) {
    IsNs3(stack) || IsLinux(stack)
  }

  /** "linux" puts the Linux stack on both leaves and the internet stack on the
      router; every other value puts the internet stack everywhere. The socket
      factory always matches the leaves' stack. */
  function SelectStack(stack: string): (p: StackPlan)
    ensures |p.nodeStacks| == NodeCount
    ensures p.nodeStacks[RouterNode] == InternetStack
    ensures p.nodeStacks[SenderNode] == p.nodeStacks[ReceiverNode]
    ensures p.nodeStacks[SenderNode] == LinuxStack <==> IsLinux(stack)
    ensures p.socketFactory == if p.nodeStacks[SenderNode] == LinuxStack then LinuxSocketFactory else Ns3SocketFactory
    ensures p.dce.Some? <==> p.nodeStacks[SenderNode] == LinuxStack
    ensures p.dce.Some? ==> p.dce.value == DceStack(LinuxFdFactory, LinuxLibrary)
  {
    if IsLinux(stack) then
      StackPlan(LinuxSocketFactory, [LinuxStack, InternetStack, LinuxStack], Some(DceStack(LinuxFdFactory, LinuxLibrary)))
    else
      StackPlan(Ns3SocketFactory, [InternetStack, InternetStack, InternetStack], None)
  }

  /** A node runs the Linux stack exactly when the mode is "linux" and the
      node is one of the two leaves. */
  lemma LinuxOnlyOnLeaves(stack: string, node: nat)
    requires node < NodeCount
    ensures SelectStack(stack).nodeStacks[node] == LinuxStack
        <==> IsLinux(stack) && (node == SenderNode || node == ReceiverNode)
  {
  }
}
