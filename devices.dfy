/** The <devices> section (DevicesDef): descriptors grouped by their class in a HashMap,
    rendered class by class in the map's iteration order. */
module Devices {
  import opened Text
  import opened Context
  import opened HashOrder
  import Disks
  import Interfaces
  import opened LeafDevices
  import Guest

  /** The descriptor classes the map is keyed by. */
  datatype DeviceKind = DiskKind | InterfaceKind | ConsoleKind | SerialKind | VideoKind
                      | GraphicKind | InputKind | FilesystemKind | ChannelKind

  /** The slot of the sixteen-slot table that the key (the class's toString, such as
      "class com.cloud.hypervisor.kvm.resource.LibvirtVmDef$DiskDef") hashes to. */
  function Slot(k: DeviceKind): nat {
    match k
    case ChannelKind => 1
    case GraphicKind => 3
    case DiskKind => 6
    case FilesystemKind => 7
    case InterfaceKind => 9
    case ConsoleKind => 14
    case SerialKind => 14
    case InputKind => 14
    case VideoKind => 15
  }

  /** A device descriptor; the mutable ones are shared objects. */
  datatype Device =
    | DiskDevice(disk: Disks.DiskDef)
    | InterfaceDevice(nic: Interfaces.InterfaceDef)
    | ConsoleDevice(console: ConsoleDef)
    | SerialDevice(serial: SerialDef)
    | VideoDevice(video: VideoDef)
    | GraphicDevice(graphic: GraphicDef)
    | InputDevice(input: InputDef)
    | FilesystemDevice(filesystem: FilesystemDef)
    | ChannelDevice(channel: VirtioSerialDef)
  {
    function Kind(): DeviceKind {
      match this
      case DiskDevice(_) => DiskKind
      case InterfaceDevice(_) => InterfaceKind
      case ConsoleDevice(_) => ConsoleKind
      case SerialDevice(_) => SerialKind
      case VideoDevice(_) => VideoKind
      case GraphicDevice(_) => GraphicKind
      case InputDevice(_) => InputKind
      case FilesystemDevice(_) => FilesystemKind
      case ChannelDevice(_) => ChannelKind
    }

    /** The object whose state the rendering reads, if any. */
    function Objects(): set<object> {
      match this
      case DiskDevice(d) => {d}
      case InterfaceDevice(n) => {n}
      case ChannelDevice(c) => {c}
      case _ => {}
    }
  }

  function ObjectsOf(devs: seq<Device>): set<object> {
    set d, o | d in devs && o in d.Objects() :: o
  }

  /** The objects of every descriptor the map holds. */
  function MapObjects(m: map<DeviceKind, seq<Device>>): set<object> {
    set k, d, o | k in m && d in m[k] && o in d.Objects() :: o
  }

  /** What rendering one descriptor does: append its text, skip it, or throw. */
  datatype Outcome = Skip | Emit(text: string) | Throw

  /** An LXC guest skips graphics, input and every disk that is not block-based; asking a
      disk without a type for its type's name throws, and so can an interface. */
  function OutcomeOf(d: Device, v: Versions, lxc: bool): Outcome
    reads d.Objects()
  {
    match d
    case DiskDevice(disk) =>
      if lxc && disk.diskType.None? then Throw
      else if lxc && disk.diskType != Some(Disks.Block) then Skip
      else Emit(disk.Xml(v))
    case InterfaceDevice(nic) =>
      if nic.Xml(v).Some? then Emit(nic.Xml(v).value) else Throw
    case ConsoleDevice(c) => Emit(c.Xml())
    case SerialDevice(s) => Emit(s.Xml())
    case VideoDevice(w) => Emit(w.Xml())
    case GraphicDevice(g) => if lxc then Skip else Emit(g.Xml())
    case InputDevice(i) => if lxc then Skip else Emit(i.Xml())
    case FilesystemDevice(f) => Emit(f.Xml())
    case ChannelDevice(c) => Emit(ChannelXml(c.name, c.Dir()))
  }

  function Outcomes(devs: seq<Device>, v: Versions, lxc: bool): (r: seq<Outcome>)
    reads ObjectsOf(devs)
    ensures |r| == |devs|
  {
    seq(|devs|, k requires 0 <= k < |devs| reads if 0 <= k < |devs| then devs[k].Objects() else {} => OutcomeOf(devs[k], v, lxc))
  }

  function Step(prev: Option<string>, o: Outcome): Option<string> {
    if prev.None? then None
    else match o
      case Skip => prev
      case Emit(t) => Some(prev.value + t)
      case Throw => None
  }

  /** The text of a run of outcomes, or None once one of them throws. */
  function RenderOutcomes(os: seq<Outcome>): Option<string> {
    if os == [] then Some("") else Step(RenderOutcomes(os[..|os| - 1]), os[|os| - 1])
  }

  /** The texts the outcomes append. */
  function Emitted(os: seq<Outcome>): seq<string> {
    if os == [] then []
    else Emitted(os[..|os| - 1]) + (if os[|os| - 1].Emit? then [os[|os| - 1].text] else [])
  }

  /** A descriptor is skipped only by an LXC guest, and only when it is one the guest leaves
      out; it throws only as a disk without a type on LXC or an interface whose text fails. */
  lemma OutcomeIff(d: Device, v: Versions, lxc: bool)
    ensures OutcomeOf(d, v, lxc) == Skip <==> lxc && LxcSkipped(d) && !(d.DiskDevice? && d.disk.diskType.None?)
    ensures OutcomeOf(d, v, lxc) == Throw <==>
              (lxc && d.DiskDevice? && d.disk.diskType.None?) || (d.InterfaceDevice? && d.nic.Xml(v).None?)
  {
  }

  /** When every outcome emits, the emitted texts are the outcomes' texts one for one. */
  lemma {:induction false} EmittedAll(os: seq<Outcome>)
    requires forall i :: 0 <= i < |os| ==> os[i].Emit?
    ensures |Emitted(os)| == |os|
    ensures forall i :: 0 <= i < |os| ==> Emitted(os)[i] == os[i].text
  {
    if os != [] {
      var init := os[..|os| - 1];
      assert forall i :: 0 <= i < |init| ==> init[i] == os[i];
      EmittedAll(init);
    }
  }

  /** Outside LXC, descriptors none of which throws each emit their text, one for one. */
  lemma EmitsAll(devs: seq<Device>, v: Versions)
    requires Throw !in Outcomes(devs, v, false)
    ensures |Emitted(Outcomes(devs, v, false))| == |devs|
    ensures forall i :: 0 <= i < |devs| ==> OutcomeOf(devs[i], v, false) == Emit(Emitted(Outcomes(devs, v, false))[i])
  {
    var os := Outcomes(devs, v, false);
    forall k | 0 <= k < |os|
      ensures os[k].Emit?
    {
      assert os[k] in os;
      OutcomeIff(devs[k], v, false);
    }
    EmittedAll(os);
  }

  /** Rendering fails exactly when some descriptor throws, and otherwise is the emitted
      texts in order. */
  lemma {:induction false} RenderOutcomesIff(os: seq<Outcome>)
    ensures RenderOutcomes(os).None? <==> Throw in os
    ensures RenderOutcomes(os).Some? ==> RenderOutcomes(os).value == Join(Emitted(os))
  {
    if os != [] {
      var init := os[..|os| - 1];
      RenderOutcomesIff(init);
      assert os == init + [os[|os| - 1]];
      if RenderOutcomes(os).Some? {
        var e := if os[|os| - 1].Emit? then [os[|os| - 1].text] else [];
        JoinAppend(Emitted(init), e);
        if e != [] {
          assert e[..0] == [];
        }
      }
    }
  }


  /** The descriptors of the given keys, key by key. */
  function Concat(m: map<DeviceKind, seq<Device>>, order: seq<DeviceKind>): seq<Device> {
    if order == [] then [] else Concat(m, order[..|order| - 1]) + ListOf(m, order[|order| - 1])
  }

  function ListOf(m: map<DeviceKind, seq<Device>>, k: DeviceKind): seq<Device> {
    if k in m then m[k] else []
  }

  /** Every list holds descriptors of the class it is keyed by. */
  predicate WellKeyed(m: map<DeviceKind, seq<Device>>) {
    forall k, d :: k in m && d in m[k] ==> d.Kind() == k
  }

  lemma {:induction false} ConcatObjects(m: map<DeviceKind, seq<Device>>, order: seq<DeviceKind>)
    ensures ObjectsOf(Concat(m, order)) <= MapObjects(m)
  {
    if order != [] {
      ConcatObjects(m, order[..|order| - 1]);
    }
  }

  /** The descriptors of one class, in the order given. */
  function OfKind(devs: seq<Device>, k: DeviceKind): seq<Device> {
    if devs == [] then []
    else OfKind(devs[..|devs| - 1], k) + (if devs[|devs| - 1].Kind() == k then [devs[|devs| - 1]] else [])
  }

  function DisksIn(devs: seq<Device>): seq<Disks.DiskDef> {
    if devs == [] then []
    else DisksIn(devs[..|devs| - 1]) + (if devs[|devs| - 1].DiskDevice? then [devs[|devs| - 1].disk] else [])
  }

  function InterfacesIn(devs: seq<Device>): seq<Interfaces.InterfaceDef> {
    if devs == [] then []
    else InterfacesIn(devs[..|devs| - 1]) + (if devs[|devs| - 1].InterfaceDevice? then [devs[|devs| - 1].nic] else [])
  }

  /** The agent channels among the descriptors, in order. */
  function ChannelList(devs: seq<Device>): (r: seq<VirtioSerialDef>)
    ensures forall c | c in r :: ChannelDevice(c) in devs
    ensures forall d | d in devs && d.ChannelDevice? :: d.channel in r
  {
    if devs == [] then []
    else
      var init := devs[..|devs| - 1];
      var last := devs[|devs| - 1];
      assert devs == init + [last];
      ChannelList(init) + (if last.ChannelDevice? then [last.channel] else [])
  }

  /** How many outcomes come before the first throw (all of them when none throws). */
  function FirstThrow(os: seq<Outcome>): (n: nat)
    ensures n <= |os| && Throw !in os[..n]
    ensures n < |os| ==> os[n] == Throw
  {
    if os == [] || os[0] == Throw then 0
    else
      var n := 1 + FirstThrow(os[1..]);
      assert os[..n] == [os[0]] + os[1..][..n - 1];
      n
  }

  class DevicesDef {
    var emulator: Option<string>
    var guestType: Option<Guest.GuestType>
    /** The map's keys, in the order they were first put. */
    var kinds: seq<DeviceKind>
    /** Each class's descriptors, in the order they were added. */
    var devices: map<DeviceKind, seq<Device>>

    /** The keys are listed once each, and every list holds descriptors of its own class. */
    ghost predicate Valid()
      reads this
    {
      (forall k :: k in devices <==> k in kinds)
      && (forall i, j :: 0 <= i < j < |kinds| ==> kinds[i] != kinds[j])
      && WellKeyed(devices)
    }

    constructor ()
      ensures emulator.None? && guestType.None? && kinds == [] && devices == map[]
      ensures Valid()
    {
      emulator, guestType := None, None;
      kinds, devices := [], map[];
    }

    method SetEmulatorPath(e: Option<string>)
      modifies this`emulator
      ensures emulator == e
    {
      emulator := e;
    }

    method SetGuestType(t: Option<Guest.GuestType>)
      modifies this`guestType
      ensures guestType == t
    {
      guestType := t;
    }

    /** Appends the descriptor to its class's list, creating the list on first use. */
    method AddDevice(d: Device) returns (added: bool)
      modifies this`kinds, this`devices
      ensures added
      ensures devices == old(devices)[d.Kind() := ListOf(old(devices), d.Kind()) + [d]]
      ensures kinds == if d.Kind() in old(kinds) then old(kinds) else old(kinds) + [d.Kind()]
      ensures old(Valid()) ==> Valid()
    {
      var k := d.Kind();
      if k !in devices {
        assert ListOf(devices, k) + [d] == [d];
        devices := devices[k := [d]];
      } else {
        devices := devices[k := devices[k] + [d]];
      }
      if k !in kinds {
        kinds := kinds + [k];
      }
      added := true;
    }

    /** getDisks: the disk list, or null when no disk was added. */
    function GetDisks(): (r: Option<seq<Disks.DiskDef>>)
      reads this
      ensures r.Some? <==> DiskKind in devices
    {
      if DiskKind in devices then Some(DisksIn(devices[DiskKind])) else None
    }

    /** getInterfaces: the interface list, or null when none was added. */
    function GetInterfaces(): (r: Option<seq<Interfaces.InterfaceDef>>)
      reads this
      ensures r.Some? <==> InterfaceKind in devices
    {
      if InterfaceKind in devices then Some(InterfacesIn(devices[InterfaceKind])) else None
    }

    /** The order the map hands out its keys in. */
    function Order(): seq<DeviceKind>
      reads this
    {
      IterationOrder(kinds, Slot)
    }

    /** Every descriptor, in the order the rendering visits them. */
    function InOrder(): seq<Device>
      reads this
    {
      Concat(devices, Order())
    }

    function IsLxc(): bool
      reads this
    {
      guestType == Some(Guest.Lxc)
    }

    function EmulatorLines(): seq<string>
      reads this
    {
      if emulator.Some? then [TextElement("emulator", emulator.value)] else []
    }

    function RenderedOutcomes(v: Versions): seq<Outcome>
      reads Footprint()
    {
      ConcatObjects(devices, Order());
      Outcomes(InOrder(), v, IsLxc())
    }

    /** The objects the rendering reads: this and the descriptors'. */
    function Footprint(): set<object>
      reads this
    {
      {this} + MapObjects(devices)
    }

    /** toString: the <devices> section, or None when a descriptor throws. */
    function Xml(v: Versions): Option<string>
      reads Footprint()
    {
      var body := RenderOutcomes(RenderedOutcomes(v));
      if body.None? then None
      else Some("<devices>\n" + Join(EmulatorLines()) + body.value + "</devices>\n")
    }

    /** The section fails exactly when one of its descriptors throws; otherwise it holds
        the descriptors' texts in the rendering order between the emulator and the end tag. */
    lemma XmlIff(v: Versions)
      ensures Xml(v).None? <==> Throw in RenderedOutcomes(v)
      ensures Xml(v).Some? ==>
        Xml(v).value == "<devices>\n" + Join(EmulatorLines()) + Join(Emitted(RenderedOutcomes(v))) + "</devices>\n"
    {
      RenderOutcomesIff(RenderedOutcomes(v));
    }

    /** Outside LXC no descriptor is left out: when none throws, the section appends the
        text of every descriptor, one per descriptor, in the rendering order. */
    lemma NonLxcRendersAll(v: Versions)
      requires !IsLxc() && Throw !in RenderedOutcomes(v)
      ensures |Emitted(RenderedOutcomes(v))| == |InOrder()|
      ensures forall i :: 0 <= i < |InOrder()| ==>
                OutcomeOf(InOrder()[i], v, false) == Emit(Emitted(RenderedOutcomes(v))[i])
    {
      assert RenderedOutcomes(v) == Outcomes(InOrder(), v, false);
      EmitsAll(InOrder(), v);
    }

    /** The agent channels, whose rendering records the default directory. */
    function Channels(): set<VirtioSerialDef>
      reads this
    {
      set c | c in ChannelList(InOrder())
    }

    /** The channels rendered before a descriptor throws (all of them when none does). */
    function RenderedChannels(v: Versions): seq<VirtioSerialDef>
      reads Footprint()
    {
      ChannelList(InOrder()[..FirstThrow(RenderedOutcomes(v))])
    }

    /** Each channel's configured directory (null when none was set). */
    function ChannelPaths(): map<VirtioSerialDef, Option<string>>
      reads this, Channels()
    {
      map c | c in Channels() :: c.path
    }

    /** Each channel's rendered directory. */
    function ChannelDirs(): map<VirtioSerialDef, string>
      reads this, Channels()
    {
      map c | c in Channels() :: c.Dir()
    }

    /** toString: returns the section's text, and every channel rendered before a
        descriptor throws records its default directory; no channel's rendering changes. */
    method ToString(v: Versions) returns (r: Option<string>)
      modifies Channels()
      ensures r == old(Xml(v))
      ensures unchanged(this)
      ensures forall c | c in old(ChannelDirs()) :: c.Dir() == old(ChannelDirs())[c]
      ensures forall c | c in old(ChannelDirs()) ::
        c.path == if c in old(RenderedChannels(v)) then Some(old(ChannelDirs())[c]) else old(ChannelPaths())[c]
    {
      r := Xml(v);
      var todo := RenderedChannels(v);
      RenderedAreChannels(v);
      RecordDirs(todo, ChannelDirs(), ChannelPaths());
    }

    /** Within a class, descriptors are rendered in the order they were added, and none
        is lost or repeated. */
    lemma SameKindInOrder(k: DeviceKind)
      requires Valid()
      ensures OfKind(InOrder(), k) == ListOf(devices, k)
    {
      IterationOrderIsPermutation(kinds, Slot);
      DistinctOnce(kinds, k);
      assert k in Order() <==> k in multiset(Order());
      ConcatOfKind(devices, Order(), k);
    }

    /** Descriptors are rendered class by class, by their class's slot in the table. */
    lemma InOrderSorted()
      requires Valid()
      ensures SlotOrdered(InOrder())
    {
      IterationOrderSorted(kinds, Slot);
      ConcatSorted(devices, Order());
    }

    /** getDisks and getInterfaces hand back the descriptors of their class, all of them,
        in the order they were added. */
    lemma ListsAsAdded()
      requires Valid()
      ensures GetDisks().Some? ==>
                (|GetDisks().value| == |devices[DiskKind]|
                 && forall i :: 0 <= i < |devices[DiskKind]| ==> devices[DiskKind][i] == DiskDevice(GetDisks().value[i]))
      ensures GetInterfaces().Some? ==>
                (|GetInterfaces().value| == |devices[InterfaceKind]|
                 && forall i :: 0 <= i < |devices[InterfaceKind]| ==>
                      devices[InterfaceKind][i] == InterfaceDevice(GetInterfaces().value[i]))
    {
      if DiskKind in devices {
        DisksInAll(devices[DiskKind]);
      }
      if InterfaceKind in devices {
        InterfacesInAll(devices[InterfaceKind]);
      }
    }

    /** The channels rendered are channels of the section. */
    lemma RenderedAreChannels(v: Versions)
      ensures forall c | c in RenderedChannels(v) :: c in ChannelDirs()
    {
      ChannelPrefix(InOrder(), FirstThrow(RenderedOutcomes(v)));
    }
  }

  /** Renders each of the channels in turn for its side effect: each records the
      directory it renders, which stays the same. */
  method RecordDirs(todo: seq<VirtioSerialDef>, ghost dirs: map<VirtioSerialDef, string>,
                    ghost paths: map<VirtioSerialDef, Option<string>>)
    requires forall c | c in todo :: c in dirs
    requires forall c | c in dirs :: c in paths && c.Dir() == dirs[c] && c.path == paths[c]
    modifies set c | c in todo
    ensures forall c | c in dirs :: c.Dir() == dirs[c]
    ensures forall c | c in dirs :: c.path == if c in todo then Some(dirs[c]) else paths[c]
  {
    var i := 0;
    while i < |todo|
      invariant 0 <= i <= |todo|
      invariant forall c | c in dirs :: c.Dir() == dirs[c]
      invariant forall c | c in dirs :: c.path == if c in todo[..i] then Some(dirs[c]) else paths[c]
    {
      var text := todo[i].ToString();
      assert todo[..i + 1] == todo[..i] + [todo[i]];
      i := i + 1;
    }
    assert todo[..i] == todo;
  }

  lemma {:induction false} DisksInAll(devs: seq<Device>)
    requires forall d | d in devs :: d.Kind() == DiskKind
    ensures |DisksIn(devs)| == |devs|
    ensures forall i :: 0 <= i < |devs| ==> devs[i] == DiskDevice(DisksIn(devs)[i])
  {
    if devs != [] {
      var init := devs[..|devs| - 1];
      assert devs == init + [devs[|devs| - 1]];
      assert devs[|devs| - 1] in devs;
      DisksInAll(init);
    }
  }

  lemma {:induction false} InterfacesInAll(devs: seq<Device>)
    requires forall d | d in devs :: d.Kind() == InterfaceKind
    ensures |InterfacesIn(devs)| == |devs|
    ensures forall i :: 0 <= i < |devs| ==> devs[i] == InterfaceDevice(InterfacesIn(devs)[i])
  {
    if devs != [] {
      var init := devs[..|devs| - 1];
      assert devs == init + [devs[|devs| - 1]];
      assert devs[|devs| - 1] in devs;
      InterfacesInAll(init);
    }
  }

  /** The channels of a prefix are channels of the whole. */
  lemma ChannelPrefix(devs: seq<Device>, n: nat)
    requires n <= |devs|
    ensures forall c | c in ChannelList(devs[..n]) :: c in ChannelList(devs)
  {
    forall c | c in ChannelList(devs[..n])
      ensures c in ChannelList(devs)
    {
      assert ChannelDevice(c) in devs[..n];
      var k :| 0 <= k < n && devs[..n][k] == ChannelDevice(c);
      assert devs[k] == ChannelDevice(c);
    }
  }

  lemma {:induction false} OfKindAppend(a: seq<Device>, b: seq<Device>, k: DeviceKind)
    ensures OfKind(a + b, k) == OfKind(a, k) + OfKind(b, k)
    decreases |b|
  {
    if b == [] {
      assert a + b == a;
    } else {
      var init, last := b[..|b| - 1], b[|b| - 1];
      OfKindAppend(a, init, k);
      assert (a + b)[..|a + b| - 1] == a + init;
      assert (a + b)[|a + b| - 1] == last;
      var tail := if last.Kind() == k then [last] else [];
      assert OfKind(b, k) == OfKind(init, k) + tail;
      assert OfKind(a + b, k) == OfKind(a + init, k) + tail;
    }
  }

  /** Filtering a list of one class. */
  lemma {:induction false} OfKindOne(devs: seq<Device>, own: DeviceKind, k: DeviceKind)
    requires forall d | d in devs :: d.Kind() == own
    ensures OfKind(devs, k) == if own == k then devs else []
  {
    if devs != [] {
      var init := devs[..|devs| - 1];
      assert devs == init + [devs[|devs| - 1]];
      OfKindOne(init, own, k);
    }
  }

  lemma {:induction false} ConcatOfKind(m: map<DeviceKind, seq<Device>>, order: seq<DeviceKind>, k: DeviceKind)
    requires WellKeyed(m) && multiset(order)[k] <= 1
    ensures OfKind(Concat(m, order), k) == if k in order then ListOf(m, k) else []
  {
    if order != [] {
      var init, last := order[..|order| - 1], order[|order| - 1];
      OnceInInit(order, k);
      ConcatOfKind(m, init, k);
      ConcatOfKindStep(m, order, k);
    }
  }

  /** One class more at the end of the walk adds its descriptors, if it is the class sought. */
  lemma ConcatOfKindStep(m: map<DeviceKind, seq<Device>>, order: seq<DeviceKind>, k: DeviceKind)
    requires WellKeyed(m) && order != []
    ensures var last := order[|order| - 1];
            OfKind(Concat(m, order), k) == OfKind(Concat(m, order[..|order| - 1]), k) + (if last == k then ListOf(m, k) else [])
  {
    var init, last := order[..|order| - 1], order[|order| - 1];
    assert Concat(m, order) == Concat(m, init) + ListOf(m, last);
    OfKindAppend(Concat(m, init), ListOf(m, last), k);
    OfKindOne(ListOf(m, last), last, k);
  }

  lemma OnceInInit<T>(order: seq<T>, k: T)
    requires order != [] && multiset(order)[k] <= 1
    ensures var init, last := order[..|order| - 1], order[|order| - 1];
            && multiset(init)[k] <= 1
            && (k in order <==> k in init || last == k)
            && (last == k ==> k !in init)
  {
    var init, last := order[..|order| - 1], order[|order| - 1];
    assert order == init + [last];
    assert multiset(order) == multiset(init) + multiset{last};
  }

  /** Descriptors listed by non-decreasing slot of their class. */
  predicate SlotOrdered(devs: seq<Device>) {
    forall i, j :: 0 <= i < j < |devs| ==> Slot(devs[i].Kind()) <= Slot(devs[j].Kind())
  }

  lemma {:induction false} ConcatKinds(m: map<DeviceKind, seq<Device>>, order: seq<DeviceKind>)
    requires WellKeyed(m)
    ensures forall d | d in Concat(m, order) :: d.Kind() in order
  {
    if order != [] {
      var init, last := order[..|order| - 1], order[|order| - 1];
      assert order == init + [last];
      ConcatKinds(m, init);
    }
  }

  lemma {:induction false} ConcatSorted(m: map<DeviceKind, seq<Device>>, order: seq<DeviceKind>)
    requires WellKeyed(m) && SlotSorted(order, Slot)
    ensures SlotOrdered(Concat(m, order))
  {
    if order != [] {
      var init, last := order[..|order| - 1], order[|order| - 1];
      assert SlotSorted(init, Slot) by {
        forall i, j | 0 <= i < j < |init|
          ensures Slot(init[i]) <= Slot(init[j])
        {
          assert init[i] == order[i] && init[j] == order[j];
        }
      }
      ConcatSorted(m, init);
      ConcatKinds(m, init);
      var c, l := Concat(m, init), ListOf(m, last);
      var all := Concat(m, order);
      assert all == c + l;
      forall i, j | 0 <= i < j < |all|
        ensures Slot(all[i].Kind()) <= Slot(all[j].Kind())
      {
        if j < |c| {
          assert all[i] == c[i] && all[j] == c[j];
        } else {
          assert all[j] == l[j - |c|] && l[j - |c|] in l;
          if i >= |c| {
            assert all[i] == l[i - |c|] && l[i - |c|] in l;
          } else {
            assert all[i] == c[i] && c[i] in c;
            var p :| 0 <= p < |init| && init[p] == c[i].Kind();
            assert order[p] == init[p] && order[|order| - 1] == last;
          }
        }
      }
    }
  }

  /** A descriptor an LXC guest leaves out. */
  predicate LxcSkipped(d: Device)
    reads d.Objects()
  {
    d.GraphicDevice? || d.InputDevice? || (d.DiskDevice? && d.disk.diskType != Some(Disks.Block))
  }

  lemma DevicesOfInit(devs: seq<Device>)
    requires devs != []
    ensures forall d | d in devs[..|devs| - 1] :: d in devs
    ensures ObjectsOf(devs[..|devs| - 1]) <= ObjectsOf(devs)
  {
    assert devs == devs[..|devs| - 1] + [devs[|devs| - 1]];
  }

  /** The descriptors an LXC guest renders. */
  function LxcKept(devs: seq<Device>): seq<Device>
    reads ObjectsOf(devs)
  {
    if devs == [] then []
    else
      DevicesOfInit(devs);
      var last := devs[|devs| - 1];
      assert last.Objects() <= ObjectsOf(devs);
      LxcKept(devs[..|devs| - 1]) + (if LxcSkipped(last) then [] else [last])
  }

  lemma OutcomesSnoc(devs: seq<Device>, d: Device, v: Versions, lxc: bool)
    ensures Outcomes(devs + [d], v, lxc) == Outcomes(devs, v, lxc) + [OutcomeOf(d, v, lxc)]
  {
  }

  lemma RenderSnoc(os: seq<Outcome>, o: Outcome)
    ensures RenderOutcomes(os + [o]) == Step(RenderOutcomes(os), o)
  {
    assert (os + [o])[..|os|] == os;
  }

  /** An LXC guest skips a descriptor it leaves out, and renders any other as any guest
      does, as long as a disk has a type. */
  lemma LxcOutcome(d: Device, v: Versions)
    requires d.DiskDevice? ==> d.disk.diskType.Some?
    ensures LxcSkipped(d) ==> OutcomeOf(d, v, true) == Skip
    ensures !LxcSkipped(d) ==> OutcomeOf(d, v, true) == OutcomeOf(d, v, false)
  {
  }

  /** An LXC guest renders what any other guest renders once graphics, input and the
      disks that are not block-based are taken out, provided every disk has a type. */
  lemma {:induction false} LxcRendering(devs: seq<Device>, v: Versions)
    requires forall d | d in devs && d.DiskDevice? :: d.disk.diskType.Some?
    ensures RenderOutcomes(Outcomes(devs, v, true)) == RenderOutcomes(Outcomes(LxcKept(devs), v, false))
  {
    if devs != [] {
      var init, last := devs[..|devs| - 1], devs[|devs| - 1];
      assert devs == init + [last];
      DevicesOfInit(devs);
      LxcRendering(init, v);
      OutcomesSnoc(init, last, v, true);
      RenderSnoc(Outcomes(init, v, true), OutcomeOf(last, v, true));
      LxcOutcome(last, v);
      if LxcSkipped(last) {
        assert LxcKept(devs) == LxcKept(init);
      } else {
        assert LxcKept(devs) == LxcKept(init) + [last];
        OutcomesSnoc(LxcKept(init), last, v, false);
        RenderSnoc(Outcomes(LxcKept(init), v, false), OutcomeOf(last, v, false));
      }
    }
  }
}
