/** Turning the user's protocol name into the congestion-control setting of
    the active stack: a SocketType default from the ns-3 type registry, or the
    Linux sysctl string; nothing for any other stack value. */
module CongestionControl {
  import opened Errors
  import opened StackSelection

  /** The prefix put in front of the command-line protocol name. */
  const TypePrefix: string := "ns3::"
  /** The position the kernel name is cut at. */
  const KernelCut: nat := 8

  const WestwoodPlusName: string := "ns3::TcpWestwoodPlus"
  const WestwoodTypeName: string := "ns3::TcpWestwood"

  const ForwardingKey: string := ".net.ipv4.conf.default.forwarding"
  const CongestionKey: string := ".net.ipv4.tcp_congestion_control"

  /** TcpWestwood's ProtocolType; WESTWOOD is the library's default. */
  datatype WestwoodProtocol = Westwood | WestwoodPlus

  /** The TcpL4Protocol::SocketType default and TcpWestwood::ProtocolType default. */
  datatype SocketDefaults = SocketDefaults(socketType: string, westwoodProtocol: WestwoodProtocol)

  datatype Sysctl = Sysctl(key: string, value: string)

  datatype CongestionSetting =
    | SocketTypeDefault(defaults: SocketDefaults)   // stack "ns3"
    | KernelSysctls(nodes: seq<nat>, sysctls: seq<Sysctl>)   // stack "linux"
    | NotConfigured                                  // any other stack value

  /** The type name: the prefix, then the user's name unchanged. */
  function Qualify(name: string): (q: string)
    ensures |q| == |TypePrefix| + |name|
    ensures q[..|TypePrefix|] == TypePrefix && q[|TypePrefix|..] == name
  {
    TypePrefix + name
  }

  /** ns-3 mode: the WestwoodPlus alias becomes TcpWestwood in WESTWOODPLUS
      mode without a lookup; every other name must be in the registry. */
  function ResolveNs3(transportProt: string, registry: set<string>): (r: Result<SocketDefaults>)
    ensures transportProt == WestwoodPlusName ==> r == Ok(SocketDefaults(WestwoodTypeName, WestwoodPlus))
    ensures r.Ok? <==> transportProt == WestwoodPlusName || transportProt in registry
    ensures r.Ok? ==> (r.value.westwoodProtocol == WestwoodPlus <==> transportProt == WestwoodPlusName)
    ensures r.Ok? && transportProt != WestwoodPlusName ==> r.value.socketType == transportProt
    ensures r.Err? ==> r.error == TypeIdNotFound(transportProt)
  {
    if transportProt == WestwoodPlusName then Ok(SocketDefaults(WestwoodTypeName, WestwoodPlus))
    else if transportProt in registry then Ok(SocketDefaults(transportProt, Westwood))
    else Err(TypeIdNotFound(transportProt))
  }

  /** TcpWestwoodPlus and TcpWestwood select the same socket type and differ
      only in the protocol flag. */
  lemma WestwoodAlias(registry: set<string>)
    requires WestwoodTypeName in registry
    ensures var plus := ResolveNs3(Qualify("TcpWestwoodPlus"), registry);
            var plain := ResolveNs3(Qualify("TcpWestwood"), registry);
            plus.Ok? && plain.Ok?
            && plus.value.socketType == plain.value.socketType == WestwoodTypeName
            && plus.value.westwoodProtocol == WestwoodPlus
            && plain.value.westwoodProtocol == Westwood
  {
    assert Qualify("TcpWestwoodPlus") == WestwoodPlusName;
    assert Qualify("TcpWestwood") == WestwoodTypeName;
  }

  predicate IsUpper(c: char) {
    'A' <= c <= 'Z'
  }

  /** ::tolower in the C locale: upper-case ASCII letters to lower case. */
  function ToLower(c: char): (d: char)
    ensures !IsUpper(d)
    ensures IsUpper(c) ==> 'a' <= d <= 'z' && d as int - 'a' as int == c as int - 'A' as int
    ensures !IsUpper(c) ==> d == c
  {
    if IsUpper(c) then (c as int - 'A' as int + 'a' as int) as char else c
  }

  /** The string std::transform leaves behind, character by character. */
  function Lower(s: string): (r: string)
    ensures |r| == |s|
    ensures forall i :: 0 <= i < |s| ==> r[i] == ToLower(s[i])
  {
    if s == [] then [] else [ToLower(s[0])] + Lower(s[1..])
  }

  /** A lower-cased string has no upper-case letter, so lower-casing it again
      changes nothing. */
  lemma LowerIdempotent(s: string)
    ensures forall i :: 0 <= i < |Lower(s)| ==> !IsUpper(Lower(s)[i])
    ensures Lower(Lower(s)) == Lower(s)
  {
  }

  /** substr(8) on the prefixed name, lower-cased. substr throws when the
      position is past the end. */
  function KernelName(transportProt: string): (r: Result<string>)
    ensures r.Err? <==> |transportProt| < KernelCut
    ensures r.Err? ==> r.error == SubstrOutOfRange(KernelCut, |transportProt|)
    ensures r.Ok? ==> |r.value| == |transportProt| - KernelCut
    ensures r.Ok? ==> forall i :: 0 <= i < |r.value| ==> !IsUpper(r.value[i])
  {
    if |transportProt| < KernelCut then Err(SubstrOutOfRange(KernelCut, |transportProt|))
    else Ok(Lower(transportProt[KernelCut..]))
  }

  /** Since the prefix has 5 characters, the kernel name is the user's name
      without its first 3 characters, lower-cased; shorter names throw. */
  lemma KernelNameDropsThree(name: string)
    ensures |name| < 3 ==> KernelName(Qualify(name)).Err?
    ensures |name| >= 3 ==> KernelName(Qualify(name)) == Ok(Lower(name[3..]))
  {
  }

  lemma KernelNameExamples()
    ensures KernelName(Qualify("TcpHybla")) == Ok("hybla")
    ensures KernelName(Qualify("cubic")) == Ok("ic")
    ensures KernelName(Qualify("ab")) == Err(SubstrOutOfRange(8, 7))
  {
    KernelNameDropsThree("TcpHybla");
    assert "TcpHybla"[3..] == "Hybla";
    var hybla := Lower("Hybla");
    assert hybla[0] == 'h' && hybla[1] == 'y' && hybla[2] == 'b' && hybla[3] == 'l' && hybla[4] == 'a';
    assert hybla == "hybla";
    KernelNameDropsThree("cubic");
    assert "cubic"[3..] == "ic";
    var ic := Lower("ic");
    assert ic[0] == 'i' && ic[1] == 'c';
    assert ic == "ic";
  }

  /** std::transform with ::tolower over the buffer, in place. */
  method LowercaseInPlace(a: array<char>)
    modifies a
    ensures a[..] == Lower(old(a[..]))
  {
    for i := 0 to a.Length
      invariant forall k :: 0 <= k < i ==> a[k] == ToLower(old(a[k]))
      invariant forall k :: i <= k < a.Length ==> a[k] == old(a[k])
    {
      a[i] := ToLower(a[i]);
    }
  }

  /** The linux-mode step: cut the name at position 8, then lower-case the
      copy in place. */
  method SelectKernelName(transportProt: string) returns (r: Result<string>)
    ensures r == KernelName(transportProt)
  {
    if |transportProt| < KernelCut {
      return Err(SubstrOutOfRange(KernelCut, |transportProt|));
    }
    var cut := transportProt[KernelCut..];
    var buf := new char[|cut|](i requires 0 <= i < |cut| => cut[i]);
    assert buf[..] == cut;
    LowercaseInPlace(buf);
    r := Ok(buf[..]);
  }

  /** The congestion-control step for each stack mode. Only "ns3" and "linux"
      can fail; any other stack value configures nothing. */
  function SelectCongestionControl(stack: string, transportProt: string, registry: set<string>): (r: Result<CongestionSetting>)
    ensures !StackAvailable(stack) ==> r == Ok(NotConfigured)
    ensures IsNs3(stack) ==> (r.Ok? <==> ResolveNs3(transportProt, registry).Ok?)
    ensures IsLinux(stack) ==> (r.Ok? <==> |transportProt| >= KernelCut)
    ensures r.Ok? ==> (r.value.SocketTypeDefault? <==> IsNs3(stack))
    ensures r.Ok? ==> (r.value.KernelSysctls? <==> IsLinux(stack))
    ensures IsNs3(stack) && r.Ok? ==> r.value.defaults == ResolveNs3(transportProt, registry).value
    ensures IsNs3(stack) && r.Err? ==> r.error == ResolveNs3(transportProt, registry).error
    ensures IsLinux(stack) && r.Err? ==> r.error == KernelName(transportProt).error
    ensures r.Ok? && IsLinux(stack) ==> r.value.nodes == [SenderNode, ReceiverNode]
    ensures r.Ok? && IsLinux(stack) ==>
              r.value.sysctls == [Sysctl(ForwardingKey, "1"), Sysctl(CongestionKey, KernelName(transportProt).value)]
  {
    if IsNs3(stack) then
      var defaults :- ResolveNs3(transportProt, registry);
      Ok(SocketTypeDefault(defaults))
    else if IsLinux(stack) then
      var name :- KernelName(transportProt);
      Ok(KernelSysctls([SenderNode, ReceiverNode], [Sysctl(ForwardingKey, "1"), Sysctl(CongestionKey, name)]))
    else
      Ok(NotConfigured)
  }
}
