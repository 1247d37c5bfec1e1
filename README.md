# TcpVariantsComparison run-configuration resolver, in Dafny

`example/TcpVariantsComparison.cc` is an ns-3/DCE experiment that sends one
bulk TCP flow from node 0 through a router (node 1) to node 2 and records the
bottleneck queue. Almost all of `main` drives simulator helpers; this project
models the part of it that decides what the run will be, before the clock
starts:

- **Buffer sizing** (`BufferSizing`): the bottleneck queue size is the byte rate
  of the slower command-line bandwidth (integer `bits / 8`) times twice the
  summed command-line delays, rounded down; bandwidths are bits/s, delays are
  nanoseconds.
- **Queue discipline** (`QueueDiscipline`): the MaxSize defaults for PfifoFast
  (`size / mtu` packets) and CoDel (`size` bytes), and the check that only
  `ns3::PfifoFastQueueDisc` or `ns3::CoDelQueueDisc` is installed.
- **Stack dispatch** (`StackSelection`): the socket factory and the stack of
  each node for `stack == "linux"` and for every other value.
- **Congestion control** (`CongestionControl`): the `ns3::` prefix; in `ns3`
  mode a lookup in the TypeId registry (an abstract set of names) with the
  `TcpWestwoodPlus` alias mapped to TcpWestwood in WESTWOODPLUS mode; in
  `linux` mode `substr(8)` of the prefixed name, lower-cased in place by a loop
  (`LowercaseInPlace`), which is the user's name minus its first 3 characters.
- **Socket-state probes** (`SsProbes`): `GetSSStats` launches `ss` only in
  `linux` mode; the polling loop calls it every 0.1 s from the flows' start to
  their stop.
- **Resolution** (`RunConfig.Resolve`): all of the above in `main`'s order,
  giving a `Run` or the first fatal condition.

Two behaviours of the code are modelled as written. The links are always built
at 150Mbps/5ms and 50Mbps/1ms, while sizing uses the unrelated command-line
`bandwidth`, `delay`, `access_bandwidth` and `access_delay` (with the defaults
the queue is 22505 bytes, where the built links would give 75000). A `stack`
value other than `ns3` or `linux` only prints an error, and the run goes on
with the ns-3 stack everywhere and no congestion-control setting.

Fatal conditions the model covers, in the order `main` meets them: an unregistered protocol in
`ns3` mode (abort), a protocol name shorter than 3 characters in `linux` mode
(`substr` throws), an MTU of 0 (the packet limit divides by it whichever
discipline is chosen), an unknown queue-disc name.

## Model

| member | source | states |
|---|---|---|
| BufferSizing.MinRate | example/TcpVariantsComparison.cc:208 | the smaller of the two rates: below both and equal to one |
| BufferSizing.BufferBytes | example/TcpVariantsComparison.cc:203-209 | size is the floor of (slower rate div 8) x twice the summed delays in seconds: size*1e9 <= product < (size+1)*1e9 |
| BufferSizing.BufferBytesSymmetric | example/TcpVariantsComparison.cc:208-209 | swapping the two links (bandwidth and delay) gives the same size |
| BufferSizing.BandwidthOrderIrrelevant | example/TcpVariantsComparison.cc:208 | exchanging the two bandwidths alone leaves the size unchanged |
| BufferSizing.BufferBytesMonotone | example/TcpVariantsComparison.cc:208-209 | larger bandwidths and delays never give a smaller buffer |
| BufferSizing.DefaultBufferBytes | example/TcpVariantsComparison.cc:57-60 | the default command line (10Mbps/45ms, 2Mbps/0.01ms) sizes the queue at 22505 bytes |
| BufferSizing.SlowAccessBufferBytes | example/TcpVariantsComparison.cc:203-209 | 10Mbps/45ms access with 50Mbps/1ms bottleneck gives 115000 bytes |
| QueueDiscipline.ParseQueueDisc | example/TcpVariantsComparison.cc:218-229 | accepted iff the name is exactly one of the two type names, selecting the discipline with that name; otherwise the fatal "Queue not recognized" |
| QueueDiscipline.ParseTypeName | example/TcpVariantsComparison.cc:218-225 | each discipline's type name selects that discipline |
| QueueDiscipline.MaxSizes | example/TcpVariantsComparison.cc:211-214 | fails iff mtu is 0; CoDel gets size bytes, PfifoFast p packets with p*mtu <= size < (p+1)*mtu |
| QueueDiscipline.InstalledUnit | example/TcpVariantsComparison.cc:211-224 | the installed discipline reads its own default: PfifoFast gets p packets with p*mtu <= size < (p+1)*mtu, CoDel gets exactly size bytes |
| QueueDiscipline.DefaultMaxSizes | example/TcpVariantsComparison.cc:56 | the default MTU of 400 turns 22505 bytes into 56 packets |
| StackSelection.SelectStack | example/TcpVariantsComparison.cc:124-135 | three nodes; router always on the internet stack; both leaves on the same stack, Linux iff stack is "linux"; socket factory matches the leaves; the DCE stack (LinuxSocketFdFactory, liblinux.so) is set iff the leaves run Linux |
| StackSelection.LinuxOnlyOnLeaves | example/TcpVariantsComparison.cc:100-104 | a node runs the Linux stack iff the mode is "linux" and it is node 0 or node 2 |
| CongestionControl.Qualify | example/TcpVariantsComparison.cc:95 | the type name is the 5-character prefix "ns3::" followed by the user's name unchanged |
| CongestionControl.ResolveNs3 | example/TcpVariantsComparison.cc:149-163 | succeeds iff the name is the WestwoodPlus alias or registered; WESTWOODPLUS flag iff alias; otherwise the socket type is the name; the alias gives TcpWestwood in WESTWOODPLUS mode for every registry; failure is TypeId-not-found for that name |
| CongestionControl.WestwoodAlias | example/TcpVariantsComparison.cc:151-157 | TcpWestwoodPlus and TcpWestwood resolve to the same socket type with different protocol flags |
| CongestionControl.ToLower | example/TcpVariantsComparison.cc:170 | the result is never upper case; upper-case letters map to the matching lower-case letter, all else unchanged |
| CongestionControl.Lower | example/TcpVariantsComparison.cc:170 | same length, each character lower-cased |
| CongestionControl.LowerIdempotent | example/TcpVariantsComparison.cc:170 | the result has no upper-case letter and lower-casing it again changes nothing |
| CongestionControl.KernelName | example/TcpVariantsComparison.cc:168-170 | fails (substr out of range) iff the prefixed name is shorter than 8; otherwise 8 characters shorter, with no upper-case letter |
| CongestionControl.KernelNameDropsThree | example/TcpVariantsComparison.cc:168-170 | with the 5-character prefix of line 95, the kernel name is the user's name minus its first 3 characters, lower-cased; names under 3 characters fail |
| CongestionControl.KernelNameExamples | example/TcpVariantsComparison.cc:168-170 | TcpHybla gives "hybla", the default cubic gives "ic", "ab" throws |
| CongestionControl.LowercaseInPlace | example/TcpVariantsComparison.cc:170 | the array afterwards holds the lower-cased old contents |
| CongestionControl.SelectKernelName | example/TcpVariantsComparison.cc:168-170 | the cut-and-lower-case step returns the kernel name, or the same substr failure |
| CongestionControl.SelectCongestionControl | example/TcpVariantsComparison.cc:148-182 | ns3 mode gives exactly the registry/alias socket defaults or their TypeId error; linux mode gives the forwarding and congestion sysctls with the kernel name, on nodes 0 and 2, or its substr error; any other stack configures nothing and never fails |
| SsProbes.GetSSStats | example/TcpVariantsComparison.cc:29-43 | a probe (`ss -a -e -i`, stack size 1 << 20) on the given node at the given time iff the stack is "linux"; a no-op otherwise |
| SsProbes.PollTimes | example/TcpVariantsComparison.cc:259 | the loop values: none iff stop <= start, every one in [start, stop) |
| SsProbes.PollTimesShape | example/TcpVariantsComparison.cc:259 | the loop visits ceil((stop-start)/0.1s) times, start + k*0.1s, all in [start, stop) |
| SsProbes.ProbeSchedule | example/TcpVariantsComparison.cc:259-262 | under "linux" one ss probe per time, in order; otherwise none |
| SsProbes.SchedulePolls | example/TcpVariantsComparison.cc:259-262 | the polling loop leaves exactly the probe schedule of the poll times |
| SsProbes.PollProbes | example/TcpVariantsComparison.cc:259-262 | probes exist iff "linux" and start < stop; the k-th is at start + k*0.1s inside [start, stop) |
| RunConfig.QualifiedAlias | example/TcpVariantsComparison.cc:95 | the prefixed name is ns3::TcpWestwoodPlus iff the user's name is TcpWestwoodPlus |
| RunConfig.Resolve | example/TcpVariantsComparison.cc:237-249 | a resolved run has sender on node 0 and sink on node 2, both from start to start+duration, which is the simulator stop, with the Linux socket factory iff stack is "linux" |
| RunConfig.ResolveOutcome | example/TcpVariantsComparison.cc:149-229 | the run resolves iff protocol, MTU and queue name all pass; otherwise the error is the first failing check in main's order |
| RunConfig.ResolvedRun | example/TcpVariantsComparison.cc:95-264 | the stack plan and congestion setting of the stack mode, hard-coded links, limits from the command-line sizing, the named discipline, both apps on [start, start+duration] which is also the simulator stop, ss probes only under "linux" at start + k*0.1s, pcap as given, config record (useEcn true, queue name, prefixed protocol, stop time) |
| RunConfig.UnknownStackStillRuns | example/TcpVariantsComparison.cc:124-182 | an unknown stack value only warns: ns-3 sockets and stacks everywhere, no congestion setting, no probes |
| RunConfig.LinksIgnoreCommandLine | example/TcpVariantsComparison.cc:107-113 | any two resolved runs build the same links, whatever their bandwidths and delays |
| RunConfig.DefaultRun | example/TcpVariantsComparison.cc:56-214 | the default command line resolves to kernel congestion control "ic", PfifoFast with 56 packets / 22505 bytes, Linux sockets; the built links would size at 75000 |

## Left out

- BufferBytes: exact integer arithmetic; the `double` product and the `uint32_t` cast of lines 208-209 may differ by one, and a size beyond 2^32-1 (undefined in C++) is not modelled.
- PollTimesShape: the loop variable of line 259 is a `float`, and `i + 0.1` is rounded back to the float spacing at `i`, so the real step is 0.1 s only for small times; the model steps by exactly 100 ms. The iteration counts can then differ by more than one: from 2^19 s the float spacing is 1/16 s and each step becomes 0.125 s (800 instead of 1000 polls over 100 s), and from 2^21 s `i + 0.1` rounds back to `i`, so the source loop never ends and, under "linux", keeps installing `ss` applications. `start_time`, `duration` and `stop_time` are integers of nanoseconds rather than floats.
- PollProbes: the k-th probe at `start + k*0.1s` and the probe count rest on the same exact 100 ms step, not on float accumulation.
- ResolvedRun: its probe spacing `start + k*PollStepNs` rests on the same exact 100 ms step.
- The qlen sampler (lines 19-27, 232) that reschedules itself every 0.1 s and appends to a file is simulator scheduling and I/O.
- Parsing of DataRate and Time strings and the TypeId registry are library code: the model takes numbers and an abstract set of registered names.
- Command-line parsing (lines 77-93); the `tracing` flag is parsed but unused by the code.
- Launching processes (`ss`, `RunIp` default routes at lines 184-185), `SysctlSet`, DCE installation, pcap, `mkdir`, the timestamped directory name, `config.txt` writing and the queue statistics printout are foreign calls or I/O; the model records what would be launched or written, not the effect.
- Topology and addressing (lines 100-117, 137-146) are simulator helpers; only the node roles and the fixed link parameters are modelled.
- `Simulator::Run/Stop/Destroy` and event ordering are the engine's.
- ResolveOutcome: `tch.SetRootQueueDisc (queue_disc_type)` at line 200 hands the unchecked name to ns-3's type lookup before the MTU division; what that library lookup does with an unknown name is not modelled, so for an unknown queue name with MTU 0 the model reports the division first.
- KernelName: characters stand for the bytes of a `std::string`, so names are taken to be ASCII; a multi-byte UTF-8 name would be cut at a different position by `substr(8)`.
- ToLower: only ASCII `A`-`Z` are mapped, as `::tolower` does in the C locale; other locales are not modelled.
