/** The domain definition (LibvirtVmDef): the domain's identity and its sections, one
    per descriptor class, kept in a HashMap keyed by the class and rendered in the map's
    iteration order inside <domain>. */
module Domain {
  import opened Text
  import opened Context
  import opened HashOrder
  import Guest
  import Features
  import Clock
  import Cpu
  import Devices
  import Metadata

  /** The classes of the sections a domain holds. */
  datatype ComponentKind = GuestKind | ResourceKind | CpuModeKind | CpuTuneKind | FeaturesKind
                         | TermPolicyKind | ClockKind | DevicesKind | MetadataKind

  /** The slot of the sixteen-slot table that the key (the class's toString, such as
      "class com.cloud.hypervisor.kvm.resource.LibvirtVmDef$DevicesDef") hashes to. */
  function Slot(k: ComponentKind): nat {
    match k
    case DevicesKind => 2
    case ResourceKind => 3
    case CpuModeKind => 3
    case GuestKind => 4
    case MetadataKind => 6
    case ClockKind => 8
    case CpuTuneKind => 8
    case FeaturesKind => 9
    case TermPolicyKind => 10
  }

  /** A section descriptor; each is a shared object. */
  datatype Component =
    | GuestComp(guest: Guest.GuestDef)
    | ResourceComp(resource: Guest.GuestResourceDef)
    | CpuModeComp(cpuMode: Cpu.CpuModeDef)
    | CpuTuneComp(cpuTune: Cpu.CpuTuneDef)
    | FeaturesComp(features: Features.FeaturesDef)
    | TermPolicyComp(term: Clock.TermPolicy)
    | ClockComp(clock: Clock.ClockDef)
    | DevicesComp(devices: Devices.DevicesDef)
    | MetadataComp(metadata: Metadata.MetadataDef)
  {
    function Kind(): ComponentKind {
      match this
      case GuestComp(_) => GuestKind
      case ResourceComp(_) => ResourceKind
      case CpuModeComp(_) => CpuModeKind
      case CpuTuneComp(_) => CpuTuneKind
      case FeaturesComp(_) => FeaturesKind
      case TermPolicyComp(_) => TermPolicyKind
      case ClockComp(_) => ClockKind
      case DevicesComp(_) => DevicesKind
      case MetadataComp(_) => MetadataKind
    }

    function Holder(): object {
      match this
      case GuestComp(g) => g
      case ResourceComp(r) => r
      case CpuModeComp(m) => m
      case CpuTuneComp(t) => t
      case FeaturesComp(f) => f
      case TermPolicyComp(t) => t
      case ClockComp(c) => c
      case DevicesComp(d) => d
      case MetadataComp(m) => m
    }

    /** The objects the section's rendering reads. */
    function Footprint(): set<object?>
      reads Holder()
    {
      match this
      case GuestComp(g) => {g}
      case ResourceComp(r) => {r}
      case CpuModeComp(m) => {m}
      case CpuTuneComp(t) => {t}
      case FeaturesComp(f) => {f, f.hyperV}
      case TermPolicyComp(t) => {t}
      case ClockComp(c) => {c}
      case DevicesComp(d) => d.Footprint()
      case MetadataComp(m) => {m, m.nuage}
    }

    /** The section's text, or a throw: a guest of a type with no rendering prints "null",
        a clock without an offset and a devices section whose descriptor throws throw. */
    function Outcome(v: Versions): Devices.Outcome
      reads Footprint()
    {
      match this
      case GuestComp(g) => Devices.Emit(OrNull(g.Xml()))
      case ResourceComp(r) => Devices.Emit(r.Xml())
      case CpuModeComp(m) => Devices.Emit(m.Xml())
      case CpuTuneComp(t) => Devices.Emit(t.Xml())
      case FeaturesComp(f) => Devices.Emit(f.Xml())
      case TermPolicyComp(t) => Devices.Emit(t.Xml())
      case ClockComp(c) => ClockOutcome(c)
      case DevicesComp(d) => DevicesOutcome(d, v)
      case MetadataComp(m) => Devices.Emit(m.Xml())
    }
  }

  /** A clock without an offset throws. */
  function ClockOutcome(c: Clock.ClockDef): Devices.Outcome
    reads c
  {
    var x := c.Xml();
    if x.Some? then Devices.Emit(x.value) else Devices.Throw
  }

  /** A devices section throws when one of its descriptors does. */
  function DevicesOutcome(d: Devices.DevicesDef, v: Versions): Devices.Outcome
    reads d.Footprint()
  {
    var x := d.Xml(v);
    if x.Some? then Devices.Emit(x.value) else Devices.Throw
  }

  function HoldersOf(cs: seq<Component>): set<object> {
    set c | c in cs :: c.Holder()
  }

  function FootprintOf(cs: seq<Component>): set<object?>
    reads HoldersOf(cs)
  {
    set c, o | c in cs && o in c.Footprint() :: o
  }

  function ComponentOutcomes(cs: seq<Component>, v: Versions): (r: seq<Devices.Outcome>)
    reads HoldersOf(cs), FootprintOf(cs)
    ensures |r| == |cs|
  {
    seq(|cs|, k requires 0 <= k < |cs| reads if 0 <= k < |cs| then cs[k].Footprint() + {cs[k].Holder()} else {} =>
      cs[k].Outcome(v))
  }

  /** Each section is kept under its own class. */
  predicate WellKeyed(m: map<ComponentKind, Component>) {
    forall k | k in m :: m[k].Kind() == k
  }

  /** The sections of the given keys, key by key. */
  function Pick(m: map<ComponentKind, Component>, order: seq<ComponentKind>): seq<Component> {
    if order == [] then []
    else Pick(m, order[..|order| - 1]) + (if order[|order| - 1] in m then [m[order[|order| - 1]]] else [])
  }

  /** The <domain> start tag. */
  function DomainOpen(hvs: string): string {
    "<domain type='" + hvs + "'>\n"
  }

  class LibvirtVmDef {
    var hvsType: Option<string>
    var domName: Option<string>
    var domUuid: Option<string>
    var desc: Option<string>
    var platformEmulator: Option<string>
    /** The map's keys, in the order they were first put. */
    var kinds: seq<ComponentKind>
    var components: map<ComponentKind, Component>

    /** The keys are listed once each, and each section sits under its own class. */
    ghost predicate Valid()
      reads this
    {
      (forall k :: k in components <==> k in kinds)
      && (forall i, j :: 0 <= i < j < |kinds| ==> kinds[i] != kinds[j])
      && WellKeyed(components)
    }

    constructor ()
      ensures hvsType.None? && domName.None? && domUuid.None? && desc.None? && platformEmulator.None?
      ensures kinds == [] && components == map[]
      ensures Valid()
    {
      hvsType, domName, domUuid, desc, platformEmulator := None, None, None, None, None;
      kinds, components := [], map[];
    }

    method SetHvsType(hvs: Option<string>)
      modifies this`hvsType
      ensures hvsType == hvs
    {
      hvsType := hvs;
    }

    method SetDomainName(name: Option<string>)
      modifies this`domName
      ensures domName == name
    {
      domName := name;
    }

    method SetDomUuid(uuid: Option<string>)
      modifies this`domUuid
      ensures domUuid == uuid
    {
      domUuid := uuid;
    }

    method SetDomDescription(d: Option<string>)
      modifies this`desc
      ensures desc == d
    {
      desc := d;
    }

    method SetPlatformEmulator(e: Option<string>)
      modifies this`platformEmulator
      ensures platformEmulator == e
    {
      platformEmulator := e;
    }

    /** addComp: stores the section under its class, replacing an earlier section of the
        same class in that section's place. */
    method AddComp(c: Component)
      modifies this`kinds, this`components
      ensures components == old(components)[c.Kind() := c]
      ensures kinds == if c.Kind() in old(kinds) then old(kinds) else old(kinds) + [c.Kind()]
      ensures old(Valid()) ==> Valid()
    {
      components := components[c.Kind() := c];
      if c.Kind() !in kinds {
        kinds := kinds + [c.Kind()];
      }
    }

    /** getDevices: the devices section, or null when none was added. */
    function GetDevices(): (r: Option<Devices.DevicesDef>)
      reads this
      ensures r.Some? ==> DevicesKind in components && components[DevicesKind] == DevicesComp(r.value)
      ensures Valid() && DevicesKind in components ==> r.Some?
    {
      if DevicesKind in components && components[DevicesKind].DevicesComp? then Some(components[DevicesKind].devices)
      else None
    }

    /** getMetaData: the metadata section, added first when there is none. */
    method GetMetaData() returns (md: Metadata.MetadataDef)
      modifies this`kinds, this`components
      ensures old(MetadataKind in components && components[MetadataKind].MetadataComp?) ==>
        md == old(components[MetadataKind].metadata) && components == old(components) && kinds == old(kinds)
      ensures !old(MetadataKind in components && components[MetadataKind].MetadataComp?) ==>
        fresh(md) && md.nuage == null && components == old(components)[MetadataKind := MetadataComp(md)]
        && kinds == if MetadataKind in old(kinds) then old(kinds) else old(kinds) + [MetadataKind]
      ensures MetadataKind in components && components[MetadataKind] == MetadataComp(md)
      ensures old(Valid()) ==> Valid()
    {
      if MetadataKind in components && components[MetadataKind].MetadataComp? {
        md := components[MetadataKind].metadata;
      } else {
        md := new Metadata.MetadataDef();
        AddComp(MetadataComp(md));
      }
    }

    /** The order the map hands out its keys in. */
    function Order(): seq<ComponentKind>
      reads this
    {
      KeyOrder(kinds)
    }

    /** The sections, in the order they are rendered. */
    function InOrder(): seq<Component>
      reads this
    {
      Pick(components, Order())
    }

    /** The identity lines: type and name always (null prints as "null"), the UUID and the
        description when set. */
    function HeadLines(): seq<string>
      reads this
    {
      [DomainOpen(OrNull(hvsType)), TextElement("name", OrNull(domName))]
      + (if domUuid.Some? then [TextElement("uuid", domUuid.value)] else [])
      + (if desc.Some? then [TextElement("description", desc.value)] else [])
    }

    function Outcomes(v: Versions): seq<Devices.Outcome>
      reads this, HoldersOf(InOrder()), FootprintOf(InOrder())
    {
      ComponentOutcomes(InOrder(), v)
    }

    /** toString: the domain's text, or None when a section throws. */
    function Xml(v: Versions): Option<string>
      reads this, HoldersOf(InOrder()), FootprintOf(InOrder())
    {
      var body := Devices.RenderOutcomes(Outcomes(v));
      if body.None? then None
      else Some(Join(HeadLines()) + body.value + "</domain>\n")
    }

    /** The text fails exactly when a section throws; otherwise it is the identity lines,
        the sections' texts in the rendering order and the end tag. */
    lemma XmlIff(v: Versions)
      ensures Xml(v).None? <==> Devices.Throw in Outcomes(v)
      ensures Xml(v).Some? ==> Xml(v).value == Join(HeadLines()) + Join(Devices.Emitted(Outcomes(v))) + "</domain>\n"
    {
      Devices.RenderOutcomesIff(Outcomes(v));
    }

    /** The UUID line appears exactly when a UUID is set, and shows it. */
    lemma UuidShownIff(u: string)
      ensures TextElement("uuid", u) in HeadLines() <==> domUuid == Some(u)
    {
      HeadShapes(OrNull(hvsType), OrNull(domName), u);
      if TextElement("uuid", u) in HeadLines() {
        HeadShapes(OrNull(hvsType), OrNull(domName), desc.GetOr(""));
        TextElementInjective("uuid", u, domUuid.value);
      }
    }

    /** The description line appears exactly when a description is set, and shows it. */
    lemma DescriptionShownIff(d: string)
      ensures TextElement("description", d) in HeadLines() <==> desc == Some(d)
    {
      HeadShapes(OrNull(hvsType), OrNull(domName), d);
      if TextElement("description", d) in HeadLines() {
        HeadShapes(OrNull(hvsType), OrNull(domName), domUuid.GetOr(""));
        TextElementInjective("description", d, desc.value);
      }
    }

    /** Every section rendered is the one last added for its class, and every section
        added is rendered exactly once. */
    lemma SectionsOnce()
      requires Valid()
      ensures forall c | c in InOrder() :: c.Kind() in components && components[c.Kind()] == c
      ensures forall k | k in components :: multiset(InOrder())[components[k]] == 1
    {
      PickFrom(components, Order());
      PickAll(components, kinds);
    }

    /** The devices section, when there is one, is rendered first: no other class hashes
        to a slot as low as its own. */
    lemma DevicesFirst()
      requires Valid() && DevicesKind in components
      ensures |InOrder()| > 0 && InOrder()[0] == components[DevicesKind]
    {
      DevicesKeyFirst(kinds);
      PickHead(components, Order());
    }

    /** The channels of the devices section, if any. */
    function DeviceChannels(): set<object>
      reads this, if GetDevices().Some? then {GetDevices().value} else {}
    {
      if GetDevices().Some? then GetDevices().value.Channels() else {}
    }

    /** toString: returns the domain's text; the devices section, which is rendered first,
        has its channels record their directories as it renders them. */
    method ToString(v: Versions) returns (r: Option<string>)
      modifies DeviceChannels()
      ensures r == old(Xml(v))
      ensures unchanged(this)
      ensures GetDevices().Some? ==>
        var d := GetDevices().value;
        unchanged(d)
        && (forall c | c in old(d.ChannelDirs()) :: c.Dir() == old(d.ChannelDirs())[c])
        && (forall c | c in old(d.ChannelDirs()) ::
              c.path == if c in old(d.RenderedChannels(v)) then Some(old(d.ChannelDirs())[c]) else old(d.ChannelPaths())[c])
    {
      r := Xml(v);
      var devs := GetDevices();
      if devs.Some? {
        var text := devs.value.ToString(v);
      }
    }
  }
  /** Asking for the metadata section twice gives the same section, which the domain
      then holds. */
  method GetMetaDataTwice(vm: LibvirtVmDef) returns (first: Metadata.MetadataDef, second: Metadata.MetadataDef)
    modifies vm`kinds, vm`components
    ensures first == second
    ensures MetadataKind in vm.components && vm.components[MetadataKind] == MetadataComp(first)
  {
    first := vm.GetMetaData();
    second := vm.GetMetaData();
  }

  /** No section is skipped. A guest of a type with no rendering prints "null"; only a
      clock without an offset and a devices section whose descriptor throws throw. */
  lemma ComponentOutcomeIff(c: Component, v: Versions)
    ensures c.Outcome(v) != Devices.Skip
    ensures c.Outcome(v) == Devices.Throw <==>
              (c.ClockComp? && c.clock.offset.None?)
              || (c.DevicesComp? && Devices.Throw in c.devices.RenderedOutcomes(v))
    ensures c.GuestComp? && c.guest.Xml().None? ==> c.Outcome(v) == Devices.Emit("null")
  {
    if c.DevicesComp? {
      c.devices.XmlIff(v);
    }
  }

  /** The first characters tell the identity lines apart. */
  lemma HeadShapes(hvs: string, name: string, x: string)
    ensures DomainOpen(hvs)[1] == 'd' && DomainOpen(hvs)[2] == 'o'
    ensures TextElement("name", name)[1] == 'n'
    ensures TextElement("uuid", x)[1] == 'u'
    ensures TextElement("description", x)[1] == 'd' && TextElement("description", x)[2] == 'e'
  {
  }

  lemma {:induction false} PickFrom(m: map<ComponentKind, Component>, order: seq<ComponentKind>)
    requires WellKeyed(m)
    ensures forall c | c in Pick(m, order) :: c.Kind() in m && m[c.Kind()] == c
  {
    if order != [] {
      PickFrom(m, order[..|order| - 1]);
    }
  }

  lemma {:induction false} PickCount(m: map<ComponentKind, Component>, order: seq<ComponentKind>, c: Component)
    requires WellKeyed(m) && c.Kind() in m && m[c.Kind()] == c && multiset(order)[c.Kind()] <= 1
    ensures multiset(Pick(m, order))[c] == if c.Kind() in order then 1 else 0
  {
    if order != [] {
      var init, last := order[..|order| - 1], order[|order| - 1];
      assert order == init + [last];
      assert multiset(order) == multiset(init) + multiset{last};
      PickCount(m, init, c);
      if last in m && m[last] == c {
        assert multiset(init)[c.Kind()] == 0;
      }
    }
  }

  lemma {:induction false} PickHead(m: map<ComponentKind, Component>, order: seq<ComponentKind>)
    requires order != [] && order[0] in m
    ensures |Pick(m, order)| > 0 && Pick(m, order)[0] == m[order[0]]
  {
    if |order| > 1 {
      var init := order[..|order| - 1];
      PickHead(m, init);
    }
  }
  /** The order a map with these keys hands them out in. */
  function KeyOrder(ks: seq<ComponentKind>): seq<ComponentKind> {
    IterationOrder(ks, Slot)
  }

  /** Each key listed once is picked once. */
  lemma PickAll(m: map<ComponentKind, Component>, ks: seq<ComponentKind>)
    requires WellKeyed(m) && (forall k :: k in m <==> k in ks)
    requires forall i, j :: 0 <= i < j < |ks| ==> ks[i] != ks[j]
    ensures forall k | k in m :: multiset(Pick(m, KeyOrder(ks)))[m[k]] == 1
  {
    var o := KeyOrder(ks);
    SlotsInTable(ks);
    IterationOrderIsPermutation(ks, Slot);
    forall k | k in m
      ensures multiset(Pick(m, o))[m[k]] == 1
    {
      DistinctOnce(ks, k);
      assert k in ks;
      assert k in multiset(o);
      PickCount(m, o, m[k]);
    }
  }

  /** The devices key, when listed, comes first in the iteration order. */
  lemma DevicesKeyFirst(ks: seq<ComponentKind>)
    requires DevicesKind in ks
    ensures |KeyOrder(ks)| > 0 && KeyOrder(ks)[0] == DevicesKind
  {
    var o := KeyOrder(ks);
    KeyListed(ks, DevicesKind);
    IterationOrderSorted(ks, Slot);
    var p :| 0 <= p < |o| && o[p] == DevicesKind;
    if p > 0 {
      assert Slot(o[0]) <= Slot(o[p]);
    }
    LowestSlot(o[0]);
  }

  /** A key listed is handed out. */
  lemma KeyListed(ks: seq<ComponentKind>, k: ComponentKind)
    requires k in ks
    ensures k in KeyOrder(ks)
  {
    SlotsInTable(ks);
    IterationOrderIsPermutation(ks, Slot);
    assert multiset(KeyOrder(ks))[k] > 0;
  }

  lemma SlotsInTable(ks: seq<ComponentKind>)
    ensures forall k | k in ks :: Slot(k) < Slots
  {
  }

  /** Only the devices section hashes to slot 2 or below. */
  lemma LowestSlot(k: ComponentKind)
    requires Slot(k) <= 2
    ensures k == DevicesKind
  {
  }
}
