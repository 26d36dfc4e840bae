/** The network interface descriptor (InterfaceDef): the kinds of guest network, the NIC
    models, the builders for each kind and the <interface> fragment it renders. */
module Interfaces {
  import opened Text
  import opened Context

  datatype GuestNetType = BridgeNet | DirectNet | PrivateNet | UserNet | EthernetNet | InternalNet {
    function Name(): string {
      match this
      case BridgeNet => "bridge"
      case DirectNet => "direct"
      case PrivateNet => "network"
      case UserNet => "user"
      case EthernetNet => "ethernet"
      case InternalNet => "internal"
    }
  }

  datatype NicModel = E1000 | VirtioNic | Rtl8139 | Ne2kPci | Vmxnet3 {
    function Name(): string {
      match this
      case E1000 => "e1000"
      case VirtioNic => "virtio"
      case Rtl8139 => "rtl8139"
      case Ne2kPci => "ne2k_pci"
      case Vmxnet3 => "vmxnet3"
    }
  }

  /** How the host side of the NIC is attached; kept for callers, never rendered. */
  datatype HostNicType = DirectAttachedWithoutDhcp | DirectAttachedWithDhcp | Vnet | Vlan

  /** The largest VLAN id that is rendered is one below this. */
  const VlanLimit: int := 4095

  /** The two directions a bandwidth limit applies to. */
  datatype Direction = Inbound | Outbound {
    function Name(): string {
      match this
      case Inbound => "inbound"
      case Outbound => "outbound"
    }
  }

  /** The <inbound> or <outbound> element of a bandwidth limit. */
  function RateLimit(direction: string, average: int, peak: int): string {
    ("<" + direction + " average='") + IntToString(average) + ("' peak='" + IntToString(peak) + "'/>\n")
  }

  /** The <vlan> block tagging the interface with a VLAN id. */
  function VlanElement(tag: int): string {
    "<vlan " + "trunk='no'>\n<tag id='" + IntToString(tag) + "'/>\n</vlan>"
  }

  lemma ElementSigs(d: Direction, a: int, p: int, t: int)
    ensures Sig(RateLimit(d.Name(), a, p)) == if d == Inbound then ('i', 'n', 'b') else ('o', 'u', 't')
    ensures Sig(VlanElement(t)) == ('v', 'l', 'a') && StartsWith(VlanElement(t), "<vlan ")
  {
    var open, rest, tail := "<vlan ", "trunk='no'>\n<tag id='", "'/>\n</vlan>";
    SigConcat(open + rest + IntToString(t), tail);
    SigConcat(open + rest, IntToString(t));
    SigConcat(open, rest);
    StartsWithConcat(open, rest);
    StartsWithExtend(open + rest, open, IntToString(t));
    StartsWithExtend(open + rest + IntToString(t), open, tail);
  }

  /** A bandwidth element is read back to its average and peak. */
  lemma RateLimitInjective(direction: string, a: int, p: int, b: int, q: int)
    requires RateLimit(direction, a, p) == RateLimit(direction, b, q)
    ensures a == b && p == q
  {
    var mid := "' peak='";
    IntToStringNoQuote(a);
    IntToStringNoQuote(b);
    IntToStringNoQuote(p);
    IntToStringNoQuote(q);
    QuotedValueUnique("<" + direction + " average='", IntToString(a), mid + IntToString(p) + "'/>\n",
                      IntToString(b), mid + IntToString(q) + "'/>\n");
    QuotedValueUnique(mid, IntToString(p), "'/>\n", IntToString(q), "'/>\n");
    IntToStringInjective(a, b);
    IntToStringInjective(p, q);
  }

  lemma VlanElementInjective(t: int, u: int)
    requires VlanElement(t) == VlanElement(u)
    ensures t == u
  {
    var pre := "<vlan " + "trunk='no'>\n<tag id='";
    IntToStringNoQuote(t);
    IntToStringNoQuote(u);
    QuotedValueUnique(pre, IntToString(t), "'/>\n</vlan>", IntToString(u), "'/>\n</vlan>");
    IntToStringInjective(t, u);
  }

  class InterfaceDef {
    var netType: Option<GuestNetType>
    var hostNetType: Option<HostNicType>
    var netSourceMode: Option<string>
    var sourceName: Option<string>
    var networkName: Option<string>
    var macAddr: Option<string>
    var scriptPath: Option<string>
    var model: Option<NicModel>
    /** A boxed Integer in the source: it may be null. */
    var networkRateKBps: Option<Int32>
    var virtualPortType: Option<string>
    var virtualPortInterfaceId: Option<string>
    var vlanTag: Int32
    var pxeDisable: bool

    /** A new descriptor: every reference null, no VLAN (-1), PXE enabled. */
    constructor ()
      ensures netType == None && hostNetType == None && netSourceMode == None
      ensures sourceName == None && networkName == None && macAddr == None && scriptPath == None
      ensures model == None && networkRateKBps == None && virtualPortType == None && virtualPortInterfaceId == None
      ensures vlanTag == -1 && !pxeDisable
    {
      netType, hostNetType, netSourceMode := None, None, None;
      sourceName, networkName, macAddr, scriptPath := None, None, None, None;
      model, networkRateKBps, virtualPortType, virtualPortInterfaceId := None, None, None, None;
      vlanTag, pxeDisable := -1, false;
    }

    /** A NIC on a host bridge, with a bandwidth limit in kbps. */
    method DefBridgeNetWithRate(brName: Option<string>, targetBrName: Option<string>, mac: Option<string>,
                                m: Option<NicModel>, rate: Option<Int32>)
      modifies this`netType, this`sourceName, this`networkName, this`macAddr, this`model, this`networkRateKBps
      ensures netType == Some(BridgeNet) && sourceName == brName && networkName == targetBrName
      ensures macAddr == mac && model == m && networkRateKBps == rate
    {
      netType, sourceName, networkName := Some(BridgeNet), brName, targetBrName;
      macAddr, model, networkRateKBps := mac, m, rate;
    }

    /** A NIC on a host bridge without a bandwidth limit (rate 0). */
    method DefBridgeNet(brName: Option<string>, targetBrName: Option<string>, mac: Option<string>, m: Option<NicModel>)
      modifies this`netType, this`sourceName, this`networkName, this`macAddr, this`model, this`networkRateKBps
      ensures netType == Some(BridgeNet) && sourceName == brName && networkName == targetBrName
      ensures macAddr == mac && model == m && networkRateKBps == Some(0)
    {
      DefBridgeNetWithRate(brName, targetBrName, mac, m, Some(0));
    }

    /** A NIC attached directly to a host device in the given macvtap mode. */
    method DefDirectNetWithRate(source: Option<string>, targetName: Option<string>, mac: Option<string>,
                                m: Option<NicModel>, sourceMode: Option<string>, rate: Option<Int32>)
      modifies this`netType, this`netSourceMode, this`sourceName, this`networkName, this`macAddr, this`model,
               this`networkRateKBps
      ensures netType == Some(DirectNet) && netSourceMode == sourceMode && sourceName == source
      ensures networkName == targetName && macAddr == mac && model == m && networkRateKBps == rate
    {
      netType, netSourceMode, sourceName, networkName := Some(DirectNet), sourceMode, source, targetName;
      macAddr, model, networkRateKBps := mac, m, rate;
    }

    method DefDirectNet(source: Option<string>, targetName: Option<string>, mac: Option<string>,
                        m: Option<NicModel>, sourceMode: Option<string>)
      modifies this`netType, this`netSourceMode, this`sourceName, this`networkName, this`macAddr, this`model,
               this`networkRateKBps
      ensures netType == Some(DirectNet) && netSourceMode == sourceMode && sourceName == source
      ensures networkName == targetName && macAddr == mac && model == m && networkRateKBps == Some(0)
    {
      DefDirectNetWithRate(source, targetName, mac, m, sourceMode, Some(0));
    }

    /** A NIC on a libvirt-managed network. */
    method DefPrivateNetWithRate(network: Option<string>, targetName: Option<string>, mac: Option<string>,
                                 m: Option<NicModel>, rate: Option<Int32>)
      modifies this`netType, this`sourceName, this`networkName, this`macAddr, this`model, this`networkRateKBps
      ensures netType == Some(PrivateNet) && sourceName == network && networkName == targetName
      ensures macAddr == mac && model == m && networkRateKBps == rate
    {
      netType, sourceName, networkName := Some(PrivateNet), network, targetName;
      macAddr, model, networkRateKBps := mac, m, rate;
    }

    method DefPrivateNet(network: Option<string>, targetName: Option<string>, mac: Option<string>, m: Option<NicModel>)
      modifies this`netType, this`sourceName, this`networkName, this`macAddr, this`model, this`networkRateKBps
      ensures netType == Some(PrivateNet) && sourceName == network && networkName == targetName
      ensures macAddr == mac && model == m && networkRateKBps == Some(0)
    {
      DefPrivateNetWithRate(network, targetName, mac, m, Some(0));
    }

    /** An ethernet NIC brought up by a script; the target device names both ends. */
    method DefEthernetWithRate(targetName: Option<string>, mac: Option<string>, m: Option<NicModel>,
                               script: Option<string>, rate: Option<Int32>)
      modifies this`netType, this`sourceName, this`networkName, this`macAddr, this`model, this`scriptPath,
               this`networkRateKBps
      ensures netType == Some(EthernetNet) && sourceName == targetName && networkName == targetName
      ensures macAddr == mac && model == m && scriptPath == script && networkRateKBps == rate
    {
      netType, networkName, sourceName := Some(EthernetNet), targetName, targetName;
      macAddr, model, scriptPath, networkRateKBps := mac, m, script, rate;
    }

    method DefEthernetWithScript(targetName: Option<string>, mac: Option<string>, m: Option<NicModel>,
                                 script: Option<string>)
      modifies this`netType, this`sourceName, this`networkName, this`macAddr, this`model, this`scriptPath,
               this`networkRateKBps
      ensures netType == Some(EthernetNet) && sourceName == targetName && networkName == targetName
      ensures macAddr == mac && model == m && scriptPath == script && networkRateKBps == Some(0)
    {
      DefEthernetWithRate(targetName, mac, m, script, Some(0));
    }

    /** An ethernet NIC without a script. */
    method DefEthernet(targetName: Option<string>, mac: Option<string>, m: Option<NicModel>)
      modifies this`netType, this`sourceName, this`networkName, this`macAddr, this`model, this`scriptPath,
               this`networkRateKBps
      ensures netType == Some(EthernetNet) && sourceName == targetName && networkName == targetName
      ensures macAddr == mac && model == m && scriptPath == None && networkRateKBps == Some(0)
    {
      DefEthernetWithScript(targetName, mac, m, None);
    }

    method SetHostNetType(t: Option<HostNicType>)
      modifies this`hostNetType
      ensures hostNetType == t
    {
      hostNetType := t;
    }

    method SetPxeDisable(disable: bool)
      modifies this`pxeDisable
      ensures pxeDisable == disable
    {
      pxeDisable := disable;
    }

    method SetVirtualPortType(t: Option<string>)
      modifies this`virtualPortType
      ensures virtualPortType == t
    {
      virtualPortType := t;
    }

    method SetVirtualPortInterfaceId(id: Option<string>)
      modifies this`virtualPortInterfaceId
      ensures virtualPortInterfaceId == id
    {
      virtualPortInterfaceId := id;
    }

    method SetVlanTag(tag: Int32)
      modifies this`vlanTag
      ensures vlanTag == tag
    {
      vlanTag := tag;
    }

    /*** Rendering (toString) ***/

    /** toString unboxes the rate only once libvirt is new enough for <bandwidth>; a null
        rate then throws. */
    predicate Renders(v: Versions)
      reads this
    {
      v.libvirt < BandwidthLibvirt || networkRateKBps.Some?
    }

    function SourceLines(): seq<string>
      reads this
    {
      if netType == Some(BridgeNet) then ["<source bridge='" + OrNull(sourceName) + "'/>\n"]
      else if netType == Some(PrivateNet) then ["<source network='" + OrNull(sourceName) + "'/>\n"]
      else if netType == Some(DirectNet) then
        ["<source dev='" + OrNull(sourceName) + "' mode='" + OrNull(netSourceMode) + "'/>\n"]
      else []
    }

    /** The target, MAC address and model elements, each only when its value is set. */
    function NameLines(): seq<string>
      reads this
    {
      (if networkName.Some? then ["<target dev='" + networkName.value + "'/>\n"] else [])
      + (if macAddr.Some? then ["<mac address='" + macAddr.value + "'/>\n"] else [])
      + (if model.Some? then ["<model type='" + model.value.Name() + "'/>\n"] else [])
    }

    predicate BandwidthWanted(v: Versions)
      requires Renders(v)
      reads this
    {
      v.libvirt >= BandwidthLibvirt && networkRateKBps.value > 0
    }

    function BandwidthLines(v: Versions): seq<string>
      requires Renders(v)
      reads this
    {
      if BandwidthWanted(v) then
        var r := networkRateKBps.value;
        ["<bandwidth>\n", RateLimit(Inbound.Name(), r, r), RateLimit(Outbound.Name(), r, r), "</bandwidth>\n"]
      else []
    }

    /** The script, the disabled option ROM and the virtual port. */
    function ExtraLines(): seq<string>
      reads this
    {
      (if scriptPath.Some? then ["<script path='" + scriptPath.value + "'/>\n"] else [])
      + (if pxeDisable then ["<rom bar='off' file=''/>"] else [])
      + (if virtualPortType.Some? then
           ["<virtualport type='" + virtualPortType.value + "'>\n"]
           + (if virtualPortInterfaceId.Some? then
                ["<parameters interfaceid='" + virtualPortInterfaceId.value + "'/>\n"] else [])
           + ["</virtualport>\n"]
         else [])
    }

    function VlanLines(): seq<string>
      reads this
    {
      if 0 < vlanTag < VlanLimit then [VlanElement(vlanTag)] else []
    }

    function OpenTag(): string
      reads this
    {
      "<interface type='" + (if netType.Some? then netType.value.Name() else "null") + "'>\n"
    }

    /** The fragments toString appends, in order. */
    function Lines(v: Versions): seq<string>
      requires Renders(v)
      reads this
    {
      [OpenTag()] + SourceLines() + NameLines() + BandwidthLines(v) + ExtraLines() + VlanLines() + ["</interface>\n"]
    }

    /** toString: the <interface> fragment, or None where it throws. */
    function Xml(v: Versions): (r: Option<string>)
      reads this
      ensures r.Some? <==> Renders(v)
    {
      if Renders(v) then Some(Join(Lines(v))) else None
    }
  }

  /*** Which elements an interface emits ***/

  lemma NameSigs(n: InterfaceDef)
    ensures forall l | l in n.NameLines() :: Sig(l) in {('t', 'a', 'r'), ('m', 'a', 'c'), ('m', 'o', 'd')}
  {
  }

  lemma ExtraLineSigs(script: string, port: string, id: string)
    ensures Sig("<script path='" + script + "'/>\n") == ('s', 'c', 'r')
    ensures Sig("<virtualport type='" + port + "'>\n") == ('v', 'i', 'r')
    ensures Sig("<parameters interfaceid='" + id + "'/>\n") == ('p', 'a', 'r')
    ensures Sig("<rom bar='off' file=''/>") == ('r', 'o', 'm')
    ensures Sig("</virtualport>\n") == ('/', 'v', 'i')
  {
    SigConcat("<script path='" + script, "'/>\n");
    SigConcat("<script path='", script);
    SigConcat("<virtualport type='" + port, "'>\n");
    SigConcat("<virtualport type='", port);
    SigConcat("<parameters interfaceid='" + id, "'/>\n");
    SigConcat("<parameters interfaceid='", id);
    assert Sig("<rom bar='off' file=''/>") == ('r', 'o', 'm');
    assert Sig("</virtualport>\n") == ('/', 'v', 'i');
  }

  lemma ExtraSigs(n: InterfaceDef)
    ensures forall l | l in n.ExtraLines() ::
      Sig(l) in {('s', 'c', 'r'), ('r', 'o', 'm'), ('v', 'i', 'r'), ('p', 'a', 'r'), ('/', 'v', 'i')}
  {
    var script := if n.scriptPath.Some? then n.scriptPath.value else "";
    var port := if n.virtualPortType.Some? then n.virtualPortType.value else "";
    var id := if n.virtualPortInterfaceId.Some? then n.virtualPortInterfaceId.value else "";
    ExtraLineSigs(script, port, id);
    var a := if n.scriptPath.Some? then ["<script path='" + script + "'/>\n"] else [];
    var b := if n.pxeDisable then ["<rom bar='off' file=''/>"] else [];
    var p := if n.virtualPortInterfaceId.Some? then ["<parameters interfaceid='" + id + "'/>\n"] else [];
    var c := if n.virtualPortType.Some? then ["<virtualport type='" + port + "'>\n"] + p + ["</virtualport>\n"] else [];
    assert n.ExtraLines() == a + b + c;
    forall l | l in a + b + c
      ensures Sig(l) in {('s', 'c', 'r'), ('r', 'o', 'm'), ('v', 'i', 'r'), ('p', 'a', 'r'), ('/', 'v', 'i')}
    {
      if l in a {
        assert Sig(l) == ('s', 'c', 'r');
      } else if l in b {
        assert Sig(l) == ('r', 'o', 'm');
      } else {
        assert l in c;
        assert Sig(l) in {('v', 'i', 'r'), ('p', 'a', 'r'), ('/', 'v', 'i')};
      }
    }
  }

  lemma BandwidthSigs(n: InterfaceDef, v: Versions)
    requires n.Renders(v)
    ensures forall l | l in n.BandwidthLines(v) :: Sig(l) in {('b', 'a', 'n'), ('i', 'n', 'b'), ('o', 'u', 't'), ('/', 'b', 'a')}
  {
  }

  lemma OpenTagSig(t: string)
    ensures Sig("<interface type='" + t + "'>\n") == ('i', 'n', 't')
  {
    SigConcat("<interface type='" + t, "'>\n");
    SigConcat("<interface type='", t);
  }

  lemma SourceLineSigs(name: string, mode: string)
    ensures Sig("<source bridge='" + name + "'/>\n") == ('s', 'o', 'u')
    ensures Sig("<source network='" + name + "'/>\n") == ('s', 'o', 'u')
    ensures Sig("<source dev='" + name + "' mode='" + mode + "'/>\n") == ('s', 'o', 'u')
  {
    SigConcat("<source bridge='" + name, "'/>\n");
    SigConcat("<source bridge='", name);
    SigConcat("<source network='" + name, "'/>\n");
    SigConcat("<source network='", name);
    SigConcat("<source dev='" + name + "' mode='" + mode, "'/>\n");
    SigConcat("<source dev='" + name + "' mode='", mode);
    SigConcat("<source dev='" + name, "' mode='");
    SigConcat("<source dev='", name);
  }

  lemma FixedSigs(n: InterfaceDef)
    ensures Sig(n.OpenTag()) == ('i', 'n', 't')
    ensures forall l | l in n.SourceLines() :: Sig(l) == ('s', 'o', 'u')
    ensures forall l | l in n.VlanLines() :: Sig(l) == ('v', 'l', 'a')
    ensures Sig("</interface>\n") == ('/', 'i', 'n')
  {
    OpenTagSig(if n.netType.Some? then n.netType.value.Name() else "null");
    SourceLineSigs(OrNull(n.sourceName), OrNull(n.netSourceMode));
    if 0 < n.vlanTag < VlanLimit {
      ElementSigs(Inbound, 0, 0, n.vlanTag);
    }
  }

  /** Where in an interface's output a fragment can come from, by its opening characters. */
  lemma FragmentSection(n: InterfaceDef, v: Versions, l: string)
    requires n.Renders(v) && l in n.Lines(v)
    ensures Sig(l) == ('b', 'a', 'n') || Sig(l) == ('i', 'n', 'b') || Sig(l) == ('o', 'u', 't') ==> l in n.BandwidthLines(v)
    ensures Sig(l) == ('v', 'l', 'a') ==> l in n.VlanLines()
  {
    NameSigs(n);
    ExtraSigs(n);
    BandwidthSigs(n, v);
    FixedSigs(n);
  }

  lemma SectionInLines(n: InterfaceDef, v: Versions, l: string)
    requires n.Renders(v)
    requires l in n.SourceLines() || l in n.NameLines() || l in n.BandwidthLines(v) || l in n.ExtraLines() || l in n.VlanLines()
    ensures l in n.Lines(v)
  {
  }

  /** A bandwidth limit is emitted exactly when libvirt is at least 0.9.4 and the rate is
      positive. */
  lemma BandwidthEmittedIff(n: InterfaceDef, v: Versions)
    requires n.Renders(v)
    ensures HasElement(n.Lines(v), "<bandwidth>") <==> v.libvirt >= 9004 && n.networkRateKBps.value > 0
  {
    if n.BandwidthWanted(v) {
      SectionInLines(n, v, "<bandwidth>\n");
      assert StartsWith("<bandwidth>\n", "<bandwidth>");
    } else {
      BandwidthSuppressed(n, v);
    }
  }

  lemma BandwidthSuppressed(n: InterfaceDef, v: Versions)
    requires n.Renders(v) && !n.BandwidthWanted(v)
    ensures !HasElement(n.Lines(v), "<bandwidth>")
  {
    if HasElement(n.Lines(v), "<bandwidth>") {
      var l :| l in n.Lines(v) && StartsWith(l, "<bandwidth>");
      BandwidthFragment(n, v, l);
    }
  }

  lemma BandwidthFragment(n: InterfaceDef, v: Versions, l: string)
    requires n.Renders(v) && l in n.Lines(v) && StartsWith(l, "<bandwidth>")
    ensures n.BandwidthWanted(v)
  {
    SigOf(l, "<bandwidth>");
    FragmentSection(n, v, l);
  }

  /** The rate elements inside <bandwidth> repeat the configured rate. */
  lemma InBandwidth(n: InterfaceDef, v: Versions, d: Direction, average: int, peak: int)
    requires n.Renders(v) && RateLimit(d.Name(), average, peak) in n.BandwidthLines(v)
    ensures n.BandwidthWanted(v) && average == n.networkRateKBps.value && peak == n.networkRateKBps.value
  {
    var r := n.networkRateKBps.value;
    ElementSigs(d, average, peak, 0);
    ElementSigs(Inbound, r, r, 0);
    ElementSigs(Outbound, r, r, 0);
    RateLimitInjective(d.Name(), average, peak, r, r);
  }

  lemma RateLimitOnlyForRate(n: InterfaceDef, v: Versions, d: Direction, average: int, peak: int)
    requires n.Renders(v) && RateLimit(d.Name(), average, peak) in n.Lines(v)
    ensures n.BandwidthWanted(v) && average == n.networkRateKBps.value && peak == n.networkRateKBps.value
  {
    ElementSigs(d, average, peak, 0);
    FragmentSection(n, v, RateLimit(d.Name(), average, peak));
    InBandwidth(n, v, d, average, peak);
  }

  /** Inbound and outbound traffic are both limited to the configured rate, as average and
      as peak: each direction's element is emitted exactly for that pair. */
  lemma RateLimitIff(n: InterfaceDef, v: Versions, d: Direction, average: int, peak: int)
    requires n.Renders(v)
    ensures RateLimit(d.Name(), average, peak) in n.Lines(v) <==>
      v.libvirt >= 9004 && n.networkRateKBps.value > 0
      && average == n.networkRateKBps.value && peak == n.networkRateKBps.value
  {
    if RateLimit(d.Name(), average, peak) in n.Lines(v) {
      RateLimitOnlyForRate(n, v, d, average, peak);
    } else if n.BandwidthWanted(v) && average == n.networkRateKBps.value && peak == n.networkRateKBps.value {
      SectionInLines(n, v, RateLimit(d.Name(), average, peak));
    }
  }

  lemma VlanOnlyForTag(n: InterfaceDef, v: Versions, t: int)
    requires n.Renders(v) && VlanElement(t) in n.Lines(v)
    ensures t == n.vlanTag && 0 < t < 4095
  {
    ElementSigs(Inbound, 0, 0, t);
    FragmentSection(n, v, VlanElement(t));
    VlanElementInjective(t, n.vlanTag);
  }

  lemma VlanSuppressed(n: InterfaceDef, v: Versions)
    requires n.Renders(v) && !(0 < n.vlanTag < VlanLimit)
    ensures !HasElement(n.Lines(v), "<vlan ")
  {
    if HasElement(n.Lines(v), "<vlan ") {
      var l :| l in n.Lines(v) && StartsWith(l, "<vlan ");
      VlanFragment(n, v, l);
    }
  }

  lemma VlanFragment(n: InterfaceDef, v: Versions, l: string)
    requires n.Renders(v) && l in n.Lines(v) && StartsWith(l, "<vlan ")
    ensures 0 < n.vlanTag < VlanLimit
  {
    SigOf(l, "<vlan ");
    FragmentSection(n, v, l);
  }

  /** A VLAN is declared exactly when the tag is strictly between 0 and 4095, and then it
      carries that tag. */
  lemma VlanEmittedIff(n: InterfaceDef, v: Versions, t: int)
    requires n.Renders(v)
    ensures VlanElement(t) in n.Lines(v) <==> t == n.vlanTag && 0 < t < 4095
    ensures HasElement(n.Lines(v), "<vlan ") <==> 0 < n.vlanTag < 4095
  {
    if VlanElement(t) in n.Lines(v) {
      VlanOnlyForTag(n, v, t);
    }
    if 0 < n.vlanTag < VlanLimit {
      SectionInLines(n, v, VlanElement(n.vlanTag));
      ElementSigs(Inbound, 0, 0, n.vlanTag);
    } else {
      VlanSuppressed(n, v);
    }
  }
}
