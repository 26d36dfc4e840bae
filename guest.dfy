/** The guest's operating-system section (GuestDef) and its memory and CPU count
    (GuestResourceDef). */
module Guest {
  import opened Text

  datatype GuestType = Kvm | Xen | Exe | Lxc

  /** The boot devices, by the name libvirt knows them under. */
  datatype BootOrder = HardDisk | CdRom | Floppy | Network {
    function Name(): string {
      match this
      case HardDisk => "hd"
      case CdRom => "cdrom"
      case Floppy => "fd"
      case Network => "network"
    }
  }

  function BootElement(b: BootOrder): string {
    "<boot dev='" + b.Name() + "'/>\n"
  }

  lemma BootElementInjective(b: BootOrder, c: BootOrder)
    requires BootElement(b) == BootElement(c)
    ensures b == c
  {
    var p := "<boot dev='";
    assert BootElement(b)[|p|..|p| + |b.Name()|] == b.Name();
    assert BootElement(c)[|p|..|p| + |c.Name()|] == c.Name();
  }

  /** The boot elements, one per boot device, in the order they were added. */
  function BootLines(devs: seq<BootOrder>): (r: seq<string>)
    ensures |r| == |devs|
    ensures forall i :: 0 <= i < |devs| ==> r[i] == BootElement(devs[i])
  {
    seq(|devs|, i requires 0 <= i < |devs| => BootElement(devs[i]))
  }

  /** The os section of a container: always the same init program. */
  const LxcLines: seq<string> := ["<os>\n", "<type>exe</type>\n", "<init>/sbin/init</init>\n", "</os>\n"]

  /** One SMBIOS system entry. */
  function Entry(name: string, value: string): string {
    "<entry name='" + name + "'>" + value + "</entry>\n"
  }

  /** The SMBIOS system information a KVM guest reports, around its uuid entry. */
  const SysinfoOpen: seq<string> := ["<sysinfo type='smbios'>\n", "<system>\n",
    Entry("manufacturer", "Apache Software Foundation"), Entry("product", "CloudStack KVM Hypervisor")]
  const SysinfoClose: seq<string> := ["</system>\n", "</sysinfo>\n", "<os>\n"]

  /** The <type> element: the architecture and machine attributes when set. */
  function TypeLine(arch: Option<string>, machine: Option<string>): string {
    "<type " + ((if arch.Some? then " arch='" + arch.value + "'" else "")
    + (if machine.Some? then " machine='" + machine.value + "'" else "") + ">hvm</type>\n")
  }

  const KvmTail: seq<string> := ["<smbios mode='sysinfo'/>\n", "</os>\n"]

  class GuestDef {
    var guestType: Option<GuestType>
    var arch: Option<string>
    var loader: Option<string>
    var kernel: Option<string>
    var initrd: Option<string>
    var root: Option<string>
    var cmdline: Option<string>
    var uuid: Option<string>
    var bootDevs: seq<BootOrder>
    var machine: Option<string>

    constructor ()
      ensures guestType.None? && arch.None? && loader.None? && kernel.None? && initrd.None?
      ensures root.None? && cmdline.None? && uuid.None? && bootDevs == [] && machine.None?
    {
      guestType, arch, loader, kernel, initrd := None, None, None, None, None;
      root, cmdline, uuid, bootDevs, machine := None, None, None, [], None;
    }

    method SetGuestType(t: Option<GuestType>)
      modifies this`guestType
      ensures guestType == t
    {
      guestType := t;
    }

    method SetGuestArch(a: Option<string>)
      modifies this`arch
      ensures arch == a
    {
      arch := a;
    }

    method SetMachineType(m: Option<string>)
      modifies this`machine
      ensures machine == m
    {
      machine := m;
    }

    method SetLoader(l: Option<string>)
      modifies this`loader
      ensures loader == l
    {
      loader := l;
    }

    method SetBootKernel(k: Option<string>, i: Option<string>, rootDev: Option<string>, cmd: Option<string>)
      modifies this`kernel, this`initrd, this`root, this`cmdline
      ensures kernel == k && initrd == i && root == rootDev && cmdline == cmd
    {
      kernel, initrd, root, cmdline := k, i, rootDev, cmd;
    }

    /** Each call adds one more boot device after those already given. */
    method SetBootOrder(b: BootOrder)
      modifies this`bootDevs
      ensures bootDevs == old(bootDevs) + [b]
    {
      bootDevs := bootDevs + [b];
    }

    method SetUuid(u: Option<string>)
      modifies this`uuid
      ensures uuid == u
    {
      uuid := u;
    }

    /** A KVM guest's SMBIOS system information and the start of its os section. */
    function KvmHead(): seq<string>
      reads this
    {
      SysinfoOpen + [Entry("uuid", OrNull(uuid))] + SysinfoClose + [TypeLine(arch, machine)]
    }

    function KvmLines(): seq<string>
      reads this
    {
      KvmHead() + BootLines(bootDevs) + KvmTail
    }

    /** The rendering: KVM and container guests only; any other type renders as null. */
    function Xml(): (r: Option<string>)
      reads this
      ensures r.Some? <==> guestType == Some(Kvm) || guestType == Some(Lxc)
    {
      if guestType == Some(Kvm) then Some(Join(KvmLines()))
      else if guestType == Some(Lxc) then Some(Join(LxcLines))
      else None
    }

    /** toString: a KVM guest appends its boot devices one at a time. */
    method ToString() returns (r: Option<string>)
      ensures r == Xml()
    {
      if guestType == Some(Kvm) {
        var boot := BootDevsText();
        var s := Join(KvmHead()) + boot;
        s := s + "<smbios mode='sysinfo'/>\n";
        s := s + "</os>\n";
        KvmJoin(this);
        r := Some(s);
      } else if guestType == Some(Lxc) {
        r := Some(Join(LxcLines));
      } else {
        r := None;
      }
    }

    /** The boot elements, appended one at a time in the order the devices were given. */
    method BootDevsText() returns (s: string)
      ensures s == Join(BootLines(bootDevs))
    {
      var boot := BootLines(bootDevs);
      s := "";
      var i := 0;
      while i < |bootDevs|
        invariant 0 <= i <= |bootDevs|
        invariant s == Join(boot[..i])
      {
        JoinSnoc(boot, i);
        s := s + BootElement(bootDevs[i]);
        i := i + 1;
      }
      assert boot[..i] == boot;
    }
  }

  lemma KvmJoin(g: GuestDef)
    ensures Join(g.KvmLines()) == Join(g.KvmHead()) + Join(BootLines(g.bootDevs)) + "<smbios mode='sysinfo'/>\n" + "</os>\n"
  {
    JoinAppend(g.KvmHead() + BootLines(g.bootDevs), KvmTail);
    JoinAppend(g.KvmHead(), BootLines(g.bootDevs));
    assert KvmTail[..1] == ["<smbios mode='sysinfo'/>\n"];
    assert Join(KvmTail[..1]) == "<smbios mode='sysinfo'/>\n" by {
      assert KvmTail[..1][..0] == [];
    }
  }

  lemma FixedNotBoot()
    ensures forall l | l in SysinfoOpen + SysinfoClose + KvmTail :: Sig(l).0 != 'b'
  {
  }

  lemma HeadLineSigs(uuid: Option<string>, arch: Option<string>, machine: Option<string>)
    ensures Sig(Entry("uuid", OrNull(uuid))).0 == 'e' && Sig(TypeLine(arch, machine)).0 == 't'
  {
  }

  /** No fixed line of a KVM guest is a boot element. */
  lemma NotBootElement(g: GuestDef, b: BootOrder)
    ensures BootElement(b) !in g.KvmHead() && BootElement(b) !in KvmTail
  {
    assert Sig(BootElement(b)).0 == 'b';
    FixedNotBoot();
    HeadLineSigs(g.uuid, g.arch, g.machine);
  }

  /** A KVM guest boots from exactly the devices it was given... */
  lemma BootElementIff(g: GuestDef, b: BootOrder)
    ensures BootElement(b) in g.KvmLines() <==> b in g.bootDevs
  {
    var e := BootElement(b);
    var boot := BootLines(g.bootDevs);
    if e in g.KvmLines() {
      NotBootElement(g, b);
      assert e in boot;
      var i :| 0 <= i < |boot| && boot[i] == e;
      BootElementInjective(b, g.bootDevs[i]);
    }
    if b in g.bootDevs {
      var i :| 0 <= i < |g.bootDevs| && g.bootDevs[i] == b;
      assert boot[i] == e;
    }
  }

  /** ...in the order they were given, right after the <type> element. */
  lemma BootOrderKept(g: GuestDef, i: nat)
    requires i < |g.bootDevs|
    ensures g.KvmLines()[|g.KvmHead()| + i] == BootElement(g.bootDevs[i])
    ensures g.KvmLines()[|g.KvmHead()| - 1] == TypeLine(g.arch, g.machine)
  {
    var head, boot := g.KvmHead(), BootLines(g.bootDevs);
    var lines := g.KvmLines();
    assert lines == (head + boot) + KvmTail;
    assert lines[|head| + i] == (head + boot)[|head| + i] == boot[i];
    assert lines[|head| - 1] == (head + boot)[|head| - 1] == head[|head| - 1];
  }

  /*** Memory and CPUs ***/

  /** The memory balloon block: a virtio balloon when ballooning is on, none otherwise. */
  function BalloonBlock(on: bool): string {
    "<devices>\n" + "<memballoon model='" + (if on then "virtio" else "none") + "'/>\n" + "</devices>\n"
  }

  function BackingElement(kind: string): string {
    "<memoryBacking>" + "<" + kind + "/>" + "</memoryBacking>\n"
  }

  class GuestResourceDef {
    var mem: Int64
    var currentMem: Int64
    var memBacking: Option<string>
    var vcpu: Int32
    var memBallooning: bool

    /** The current memory and the CPU count start unset (-1), ballooning off. */
    constructor ()
      ensures mem == 0 && currentMem == -1 && memBacking.None? && vcpu == -1 && !memBallooning
    {
      mem, currentMem, memBacking, vcpu, memBallooning := 0, -1, None, -1, false;
    }

    method SetMemorySize(m: Int64)
      modifies this`mem
      ensures mem == m
    {
      mem := m;
    }

    method SetCurrentMem(m: Int64)
      modifies this`currentMem
      ensures currentMem == m
    {
      currentMem := m;
    }

    method SetMemBacking(b: Option<string>)
      modifies this`memBacking
      ensures memBacking == b
    {
      memBacking := b;
    }

    method SetVcpuNum(n: Int32)
      modifies this`vcpu
      ensures vcpu == n
    {
      vcpu := n;
    }

    method SetMemBallooning(on: bool)
      modifies this`memBallooning
      ensures memBallooning == on
    {
      memBallooning := on;
    }

    function Lines(): seq<string>
      reads this
    {
      [NumberElement("memory", mem)]
      + (if currentMem != -1 then [NumberElement("currentMemory", currentMem)] else [])
      + (if memBacking.Some? then [BackingElement(memBacking.value)] else [])
      + [BalloonBlock(memBallooning)]
      + (if vcpu != -1 then [NumberElement("vcpu", vcpu)] else [])
    }

    function Xml(): string
      reads this
    {
      Join(Lines())
    }
  }

  lemma BalloonBlockInjective(a: bool, b: bool)
    requires BalloonBlock(a) == BalloonBlock(b)
    ensures a == b
  {
    var k := |"<devices>\n" + "<memballoon model='"|;
    assert BalloonBlock(a)[k] == (if a then 'v' else 'n');
    assert BalloonBlock(b)[k] == (if b then 'v' else 'n');
  }

  /** A rendered line is one of the five lines, each under its own condition. */
  lemma ResourceCases(r: GuestResourceDef, l: string)
    requires l in r.Lines()
    ensures l == NumberElement("memory", r.mem)
         || (r.currentMem != -1 && l == NumberElement("currentMemory", r.currentMem))
         || (r.memBacking.Some? && l == BackingElement(r.memBacking.value))
         || l == BalloonBlock(r.memBallooning)
         || (r.vcpu != -1 && l == NumberElement("vcpu", r.vcpu))
  {
  }

  /** Which line a rendered line is, from its first characters (the memory size and the
      backing both open with "<mem", and differ at their eighth character). */
  lemma ResourceKind(mem: int, currentMem: int, backing: Option<string>, on: bool, vcpu: int, l: string)
    requires l == NumberElement("memory", mem)
          || (currentMem != -1 && l == NumberElement("currentMemory", currentMem))
          || (backing.Some? && l == BackingElement(backing.value))
          || l == BalloonBlock(on)
          || (vcpu != -1 && l == NumberElement("vcpu", vcpu))
    ensures Sig(l) == ('m', 'e', 'm') && |l| > 7 && l[7] == '>' ==> l == NumberElement("memory", mem)
    ensures Sig(l) == ('m', 'e', 'm') && |l| > 7 && l[7] == 'B' ==> backing.Some? && l == BackingElement(backing.value)
    ensures Sig(l) == ('c', 'u', 'r') ==> currentMem != -1 && l == NumberElement("currentMemory", currentMem)
    ensures Sig(l) == ('v', 'c', 'p') ==> vcpu != -1 && l == NumberElement("vcpu", vcpu)
    ensures Sig(l) == ('d', 'e', 'v') ==> l == BalloonBlock(on)
  {
    MemoryElementShape(mem);
    CurrentMemoryElementShape(currentMem);
    VcpuElementShape(vcpu);
    BalloonShape(on);
    BackingShape(backing.GetOr(""));
  }

  lemma BackingShape(kind: string)
    ensures Sig(BackingElement(kind)) == ('m', 'e', 'm') && BackingElement(kind)[7] == 'B'
  {
  }

  lemma ResourceFragment(r: GuestResourceDef, l: string)
    requires l in r.Lines()
    ensures Sig(l) == ('m', 'e', 'm') && |l| > 7 && l[7] == '>' ==> l == NumberElement("memory", r.mem)
    ensures Sig(l) == ('m', 'e', 'm') && |l| > 7 && l[7] == 'B' ==> r.memBacking.Some? && l == BackingElement(r.memBacking.value)
    ensures Sig(l) == ('c', 'u', 'r') ==> r.currentMem != -1 && l == NumberElement("currentMemory", r.currentMem)
    ensures Sig(l) == ('v', 'c', 'p') ==> r.vcpu != -1 && l == NumberElement("vcpu", r.vcpu)
    ensures Sig(l) == ('d', 'e', 'v') ==> l == BalloonBlock(r.memBallooning)
  {
    ResourceCases(r, l);
    ResourceKind(r.mem, r.currentMem, r.memBacking, r.memBallooning, r.vcpu, l);
  }

  lemma MemoryElementShape(n: int)
    ensures Sig(NumberElement("memory", n)) == ('m', 'e', 'm')
    ensures |NumberElement("memory", n)| > 7 && NumberElement("memory", n)[7] == '>'
  {
    NumberElementSig("memory", n);
  }

  lemma MemoryShown(r: GuestResourceDef, n: int)
    requires NumberElement("memory", n) in r.Lines()
    ensures n == r.mem
  {
    MemoryElementShape(n);
    ResourceFragment(r, NumberElement("memory", n));
    NumberElementInjective("memory", n, r.mem);
  }

  lemma CurrentMemoryElementShape(n: int)
    ensures Sig(NumberElement("currentMemory", n)) == ('c', 'u', 'r')
  {
    NumberElementSig("currentMemory", n);
  }

  lemma VcpuElementShape(n: int)
    ensures Sig(NumberElement("vcpu", n)) == ('v', 'c', 'p')
  {
    NumberElementSig("vcpu", n);
  }

  lemma CurrentMemoryShown(r: GuestResourceDef, n: int)
    requires NumberElement("currentMemory", n) in r.Lines()
    ensures r.currentMem != -1 && n == r.currentMem
  {
    CurrentMemoryElementShape(n);
    ResourceFragment(r, NumberElement("currentMemory", n));
    NumberElementInjective("currentMemory", n, r.currentMem);
  }

  lemma VcpuShown(r: GuestResourceDef, n: int)
    requires NumberElement("vcpu", n) in r.Lines()
    ensures r.vcpu != -1 && n == r.vcpu
  {
    VcpuElementShape(n);
    ResourceFragment(r, NumberElement("vcpu", n));
    NumberElementInjective("vcpu", n, r.vcpu);
  }

  /** The memory size is always rendered. */
  lemma MemoryRendered(r: GuestResourceDef, n: int)
    ensures NumberElement("memory", n) in r.Lines() <==> n == r.mem
  {
    if NumberElement("memory", n) in r.Lines() {
      MemoryShown(r, n);
    }
  }

  /** The current memory is rendered exactly when it is set (not -1). */
  lemma CurrentMemoryIff(r: GuestResourceDef, n: int)
    ensures NumberElement("currentMemory", n) in r.Lines() <==> r.currentMem != -1 && n == r.currentMem
  {
    if NumberElement("currentMemory", n) in r.Lines() {
      CurrentMemoryShown(r, n);
    }
  }

  /** The CPU count is rendered exactly when it is set (not -1). */
  lemma VcpuIff(r: GuestResourceDef, n: int)
    ensures NumberElement("vcpu", n) in r.Lines() <==> r.vcpu != -1 && n == r.vcpu
  {
    if NumberElement("vcpu", n) in r.Lines() {
      VcpuShown(r, n);
    }
  }

  lemma BackingElementInjective(k: string, j: string)
    requires BackingElement(k) == BackingElement(j)
    ensures k == j
  {
    FieldUnique("<memoryBacking>" + "<", k, j, "/>", "</memoryBacking>\n");
  }

  /** The memory backing is rendered exactly when it is set, and shows the kind set. */
  lemma BackingIff(r: GuestResourceDef, kind: string)
    ensures BackingElement(kind) in r.Lines() <==> r.memBacking == Some(kind)
  {
    if BackingElement(kind) in r.Lines() {
      BackingShape(kind);
      ResourceFragment(r, BackingElement(kind));
      BackingElementInjective(kind, r.memBacking.value);
    }
  }

  lemma BalloonShape(on: bool)
    ensures Sig(BalloonBlock(on)) == ('d', 'e', 'v')
  {
  }

  /** Exactly one balloon block is rendered, and it is virtio exactly when ballooning is on. */
  lemma BalloonIff(r: GuestResourceDef, on: bool)
    ensures BalloonBlock(on) in r.Lines() <==> on == r.memBallooning
  {
    if BalloonBlock(on) in r.Lines() {
      BalloonShape(on);
      ResourceFragment(r, BalloonBlock(on));
      BalloonBlockInjective(on, r.memBallooning);
    }
  }
}
