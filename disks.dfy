/** The disk descriptor (DiskDef): its enumerations, the device-label arithmetic, the
    builders that fill it in and the <disk> fragment it renders. */
module Disks {
  import opened Text
  import opened Context

  datatype DeviceType = Floppy | Disk | Cdrom | Lun {
    function Name(): string {
      match this
      case Floppy => "floppy"
      case Disk => "disk"
      case Cdrom => "cdrom"
      case Lun => "lun"
    }
  }

  datatype DiskType = File | Block | Directory | Network {
    function Name(): string {
      match this
      case File => "file"
      case Block => "block"
      case Directory => "dir"
      case Network => "network"
    }
  }

  datatype DiskProtocol = Rbd | Sheepdog | Gluster {
    function Name(): string {
      match this
      case Rbd => "rbd"
      case Sheepdog => "sheepdog"
      case Gluster => "gluster"
    }
  }

  datatype DiskBus = Ide | Scsi | Virtio | Xen | Usb | Uml | Fdc {
    function Name(): string {
      match this
      case Ide => "ide"
      case Scsi => "scsi"
      case Virtio => "virtio"
      case Xen => "xen"
      case Usb => "usb"
      case Uml => "uml"
      case Fdc => "fdc"
    }
  }

  datatype DiskFmtType = Raw | Qcow2 {
    function Name(): string {
      match this
      case Raw => "raw"
      case Qcow2 => "qcow2"
    }
  }

  datatype DiskCacheMode = CacheNone | CacheWriteback | CacheWritethrough {
    function Name(): string {
      match this
      case CacheNone => "none"
      case CacheWriteback => "writeback"
      case CacheWritethrough => "writethrough"
    }
  }

  // How a possibly-null enumeration value prints when concatenated into markup.
  function DiskTypeText(t: Option<DiskType>): string { if t.Some? then t.value.Name() else "null" }
  function ProtocolText(p: Option<DiskProtocol>): string { if p.Some? then p.value.Name() else "null" }
  function FmtText(f: Option<DiskFmtType>): string { if f.Some? then f.value.Name() else "null" }
  function CacheText(c: Option<DiskCacheMode>): string { if c.Some? then c.value.Name() else "null" }

  /*** Device labels ***/

  /** The label the ISO (CD-ROM) disk always gets. */
  const IsoLabel: string := "hdc"

  /** The UTF-16 code of the label's last character: index 2 is moved to 3 so that the
      ISO's slot ('c') is skipped, then 'a' is added and the sum cast to a 16-bit char. */
  function SuffixCode(devId: int): int {
    (('a' as int) + (if devId == 2 then 3 else devId)) % 0x1_0000
  }

  /** A 16-bit code that a Dafny char can hold (it cannot hold a UTF-16 surrogate). */
  predicate Representable(code: int) {
    0 <= code < 0xD800 || 0xE000 <= code < 0x1_0000
  }

  function BusPrefix(bus: Option<DiskBus>): string {
    if bus == Some(Scsi) then "sd" else if bus == Some(Virtio) then "vd" else "hd"
  }

  /** getDevLabel: the target label of the disk numbered devId on the given bus. */
  function DevLabel(devId: int, bus: Option<DiskBus>): (r: string)
    requires Representable(SuffixCode(devId))
    ensures |r| == 3
  {
    BusPrefix(bus) + [SuffixCode(devId) as char]
  }

  /** The last UTF-16 code unit of a character: the character itself inside the Basic
      Multilingual Plane, the low surrogate of its pair outside it. */
  function LastCodeUnit(c: char): (u: int)
    ensures 0 <= u < 0x1_0000
    ensures c as int < 0x1_0000 ==> u == c as int
    ensures c as int >= 0x1_0000 ==> 0xDC00 <= u < 0xE000
  {
    if c as int < 0x1_0000 then c as int else 0xDC00 + (c as int - 0x1_0000) % 0x400
  }

  /** getDiskSeq: the position of the label's last UTF-16 code unit after 'a'; None where
      the source throws (an empty label). */
  function DiskSeqOf(tag: string): Option<int> {
    if |tag| == 0 then None else Some(LastCodeUnit(tag[|tag| - 1]) - 'a' as int)
  }

  /** getDiskSeq reads a single 16-bit unit: its result always lies in the range of a
      char minus 'a', and a label ending outside the Basic Multilingual Plane gives the
      position of a low surrogate, never the character's own code point. */
  lemma DiskSeqRange(tag: string)
    requires |tag| > 0
    ensures DiskSeqOf(tag).Some?
    ensures -('a' as int) <= DiskSeqOf(tag).value < 0x1_0000 - 'a' as int
    ensures tag[|tag| - 1] as int >= 0x1_0000 ==>
              0xDC00 - 'a' as int <= DiskSeqOf(tag).value < 0xE000 - 'a' as int
    ensures tag[|tag| - 1] as int < 0x1_0000 ==> DiskSeqOf(tag).value == tag[|tag| - 1] as int - 'a' as int
  {
  }

  /** For the first 26 indices the label is the bus prefix and one lower-case letter,
      index 2 being moved to 3. */
  lemma DevLabelLetters(devId: int, bus: Option<DiskBus>)
    requires 0 <= devId <= 25
    ensures Representable(SuffixCode(devId))
    ensures DevLabel(devId, bus)[..2] == (if bus == Some(Scsi) then "sd" else if bus == Some(Virtio) then "vd" else "hd")
    ensures 'a' <= DevLabel(devId, bus)[2] <= 'z'
    ensures DevLabel(devId, bus)[2] as int == 'a' as int + (if devId == 2 then 3 else devId)
  {
  }

  /** getDiskSeq inverts getDevLabel wherever the char cast does not wrap and the code is
      not a surrogate: it gives devId back, except that index 2 comes back as 3. */
  lemma DiskSeqInvertsDevLabel(devId: int, bus: Option<DiskBus>)
    requires -('a' as int) <= devId < 0x1_0000 - 'a' as int && Representable(SuffixCode(devId))
    ensures DiskSeqOf(DevLabel(devId, bus)) == Some(if devId == 2 then 3 else devId)
  {
  }

  /** Indices 2 and 3 share a label; no other two indices in that range do. */
  lemma DevLabelCollisions(i: int, j: int, bus: Option<DiskBus>)
    requires -('a' as int) <= i < 0x1_0000 - 'a' as int && Representable(SuffixCode(i))
    requires -('a' as int) <= j < 0x1_0000 - 'a' as int && Representable(SuffixCode(j))
    ensures DevLabel(i, bus) == DevLabel(j, bus) <==> i == j || (i == 2 && j == 3) || (i == 3 && j == 2)
  {
    DiskSeqInvertsDevLabel(i, bus);
    DiskSeqInvertsDevLabel(j, bus);
  }

  /** The ISO disk's fixed label reads back as index 2, a position no computed label takes. */
  lemma IsoSlotReserved(devId: int, bus: Option<DiskBus>)
    requires -('a' as int) <= devId < 0x1_0000 - 'a' as int && Representable(SuffixCode(devId))
    ensures DiskSeqOf(IsoLabel) == Some(2)
    ensures DevLabel(devId, bus) != IsoLabel
  {
    DiskSeqInvertsDevLabel(devId, bus);
  }

  /*** Elements that show one field ***/

  /** The source of a file disk. */
  function FileSource(path: string): string {
    "<source " + ("file='" + path + "'") + "/>\n"
  }

  /** The source of a block disk. */
  function BlockSource(path: string): string {
    "<source" + (" dev='" + path + "'") + "/>\n"
  }

  function BusAttribute(bus: Option<DiskBus>): string {
    if bus.Some? then " bus='" + bus.value.Name() + "'" else ""
  }

  /** The target: the label, then the bus when there is one. */
  function TargetElement(tag: string, bus: Option<DiskBus>): string {
    "<target dev='" + tag + "'" + BusAttribute(bus) + "/>\n"
  }

  lemma BusNameInjective(a: DiskBus, b: DiskBus)
    ensures a.Name() == b.Name() <==> a == b
  {
  }

  lemma FileSourceInjective(p: string, q: string)
    ensures FileSource(p) == FileSource(q) <==> p == q
  {
    if FileSource(p) == FileSource(q) {
      MiddleUnique("<source ", "file='" + p + "'", "file='" + q + "'", "/>\n");
      MiddleUnique("file='", p, q, "'");
    }
  }

  lemma BlockSourceInjective(p: string, q: string)
    ensures BlockSource(p) == BlockSource(q) <==> p == q
  {
    if BlockSource(p) == BlockSource(q) {
      MiddleUnique("<source", " dev='" + p + "'", " dev='" + q + "'", "/>\n");
      MiddleUnique(" dev='", p, q, "'");
    }
  }

  lemma BusAttributeInjective(b1: Option<DiskBus>, b2: Option<DiskBus>)
    requires BusAttribute(b1) == BusAttribute(b2)
    ensures b1 == b2
  {
    if b1.Some? && b2.Some? {
      MiddleUnique(" bus='", b1.value.Name(), b2.value.Name(), "'");
      BusNameInjective(b1.value, b2.value);
    } else {
      assert |BusAttribute(b1)| == |BusAttribute(b2)|;
    }
  }

  /** A quote-free label and the bus are read back from the target element. */
  lemma TargetElementInjective(l1: string, b1: Option<DiskBus>, l2: string, b2: Option<DiskBus>)
    requires NoQuote(l1) && NoQuote(l2)
    ensures TargetElement(l1, b1) == TargetElement(l2, b2) <==> l1 == l2 && b1 == b2
  {
    if TargetElement(l1, b1) == TargetElement(l2, b2) {
      var r1 := "'" + BusAttribute(b1) + "/>\n";
      var r2 := "'" + BusAttribute(b2) + "/>\n";
      Regroup("<target dev='", l1, "'", BusAttribute(b1), "/>\n");
      Regroup("<target dev='", l2, "'", BusAttribute(b2), "/>\n");
      QuotedValueUnique("<target dev='", l1, r1, l2, r2);
      MiddleUnique("'", BusAttribute(b1), BusAttribute(b2), "/>\n");
      BusAttributeInjective(b1, b2);
    }
  }

  lemma ShowOneSigs(p: string, tag: string, bus: Option<DiskBus>)
    ensures Sig(FileSource(p)) == ('s', 'o', 'u') && Sig(BlockSource(p)) == ('s', 'o', 'u')
    ensures Sig(TargetElement(tag, bus)) == ('t', 'a', 'r')
  {
    SigConcat("<source " + ("file='" + p + "'"), "/>\n");
    SigConcat("<source ", "file='" + p + "'");
    SigConcat("<source" + (" dev='" + p + "'"), "/>\n");
    SigConcat("<source", " dev='" + p + "'");
    var t := TargetElement(tag, bus);
    StartsWithConcat("<target dev='", tag);
    StartsWithExtend("<target dev='" + tag, "<target dev='", "'");
    StartsWithExtend("<target dev='" + tag + "'", "<target dev='", BusAttribute(bus));
    StartsWithExtend("<target dev='" + tag + "'" + BusAttribute(bus), "<target dev='", "/>\n");
    SigOf(t, "<target dev='");
  }

  /*** The descriptor ***/

  predicate Positive(rate: Option<Int64>) {
    rate.Some? && rate.value > 0
  }

  /** The four I/O limits a disk may carry, in the order <iotune> lists them. */
  datatype RateKind = BytesRead | BytesWrite | IopsRead | IopsWrite {
    function Tag(): string {
      match this
      case BytesRead => "read_bytes_sec"
      case BytesWrite => "write_bytes_sec"
      case IopsRead => "read_iops_sec"
      case IopsWrite => "write_iops_sec"
    }
  }

  class DiskDef {
    var deviceType: Option<DeviceType>
    var diskType: Option<DiskType>
    var diskProtocol: Option<DiskProtocol>
    var sourcePath: Option<string>
    var sourceHost: Option<string>
    var sourcePort: Int32
    var authUserName: Option<string>
    var authSecretUuid: Option<string>
    var diskLabel: Option<string>
    var bus: Option<DiskBus>
    var diskFmtType: Option<DiskFmtType>
    var readonly: bool
    var shareable: bool
    var deferAttach: bool
    var bytesReadRate: Option<Int64>
    var bytesWriteRate: Option<Int64>
    var iopsReadRate: Option<Int64>
    var iopsWriteRate: Option<Int64>
    var diskCacheMode: Option<DiskCacheMode>
    var serial: Option<string>
    var qemuDriver: bool

    /** A new descriptor: every reference null, every flag off except the qemu driver. */
    constructor ()
      ensures deviceType == None && diskType == None && diskProtocol == None
      ensures sourcePath == None && sourceHost == None && sourcePort == 0
      ensures authUserName == None && authSecretUuid == None && diskLabel == None
      ensures bus == None && diskFmtType == None && !readonly && !shareable && !deferAttach
      ensures bytesReadRate == None && bytesWriteRate == None && iopsReadRate == None && iopsWriteRate == None
      ensures diskCacheMode == None && serial == None && qemuDriver
    {
      deviceType, diskType, diskProtocol := None, None, None;
      sourcePath, sourceHost, sourcePort := None, None, 0;
      authUserName, authSecretUuid, diskLabel := None, None, None;
      bus, diskFmtType := None, None;
      readonly, shareable, deferAttach := false, false, false;
      bytesReadRate, bytesWriteRate, iopsReadRate, iopsWriteRate := None, None, None, None;
      diskCacheMode, serial, qemuDriver := None, None, true;
    }

    method SetDeviceType(t: Option<DeviceType>)
      modifies this`deviceType
      ensures deviceType == t
    {
      deviceType := t;
    }

    /** A file-backed disk with an explicit label. */
    method DefFileBasedDisk(filePath: Option<string>, targetLabel: Option<string>, b: Option<DiskBus>, fmt: Option<DiskFmtType>)
      modifies this`diskType, this`deviceType, this`diskCacheMode, this`sourcePath, this`diskLabel, this`diskFmtType, this`bus
      ensures diskType == Some(File) && deviceType == Some(Disk) && diskCacheMode == Some(CacheNone)
      ensures sourcePath == filePath && diskLabel == targetLabel && diskFmtType == fmt && bus == b
    {
      diskType, deviceType, diskCacheMode := Some(File), Some(Disk), Some(CacheNone);
      sourcePath, diskLabel, diskFmtType, bus := filePath, targetLabel, fmt, b;
    }

    /** A file-backed disk labelled from its index. */
    method DefFileBasedDiskAt(filePath: Option<string>, devId: Int32, b: Option<DiskBus>, fmt: Option<DiskFmtType>)
      requires Representable(SuffixCode(devId))
      modifies this`diskType, this`deviceType, this`diskCacheMode, this`sourcePath, this`diskLabel, this`diskFmtType, this`bus
      ensures diskType == Some(File) && deviceType == Some(Disk) && diskCacheMode == Some(CacheNone)
      ensures sourcePath == filePath && diskLabel == Some(DevLabel(devId, b)) && diskFmtType == fmt && bus == b
    {
      DefFileBasedDisk(filePath, Some(DevLabel(devId, b)), b, fmt);
    }

    /** The CD-ROM holding an ISO image: always label hdc on the IDE bus, raw format. */
    method DefIsoDisk(volPath: Option<string>)
      modifies this`diskType, this`deviceType, this`diskCacheMode, this`sourcePath, this`diskLabel, this`diskFmtType, this`bus
      ensures diskType == Some(File) && deviceType == Some(Cdrom) && diskCacheMode == Some(CacheNone)
      ensures sourcePath == volPath && diskLabel == Some(IsoLabel) && diskFmtType == Some(Raw) && bus == Some(Ide)
    {
      diskType, deviceType, diskCacheMode := Some(File), Some(Cdrom), Some(CacheNone);
      sourcePath, diskLabel, diskFmtType, bus := volPath, Some(IsoLabel), Some(Raw), Some(Ide);
    }

    /** A block-device disk labelled from its index; always raw. */
    method DefBlockBasedDiskAt(diskName: Option<string>, devId: Int32, b: Option<DiskBus>)
      requires Representable(SuffixCode(devId))
      modifies this`diskType, this`deviceType, this`diskCacheMode, this`sourcePath, this`diskLabel, this`diskFmtType, this`bus
      ensures diskType == Some(Block) && deviceType == Some(Disk) && diskCacheMode == Some(CacheNone)
      ensures sourcePath == diskName && diskLabel == Some(DevLabel(devId, b)) && diskFmtType == Some(Raw) && bus == b
    {
      DefBlockBasedDisk(diskName, Some(DevLabel(devId, b)), b);
    }

    /** A block-device disk with an explicit label; always raw. */
    method DefBlockBasedDisk(diskName: Option<string>, targetLabel: Option<string>, b: Option<DiskBus>)
      modifies this`diskType, this`deviceType, this`diskCacheMode, this`sourcePath, this`diskLabel, this`diskFmtType, this`bus
      ensures diskType == Some(Block) && deviceType == Some(Disk) && diskCacheMode == Some(CacheNone)
      ensures sourcePath == diskName && diskLabel == targetLabel && diskFmtType == Some(Raw) && bus == b
    {
      diskType, deviceType, diskCacheMode := Some(Block), Some(Disk), Some(CacheNone);
      sourcePath, diskLabel, diskFmtType, bus := diskName, targetLabel, Some(Raw), b;
    }

    /** A disk on network storage labelled from its index. */
    method DefNetworkBasedDiskAt(diskName: Option<string>, host: Option<string>, port: Int32, user: Option<string>,
                                 secretUuid: Option<string>, devId: Int32, b: Option<DiskBus>,
                                 protocol: Option<DiskProtocol>, fmt: Option<DiskFmtType>)
      requires Representable(SuffixCode(devId))
      modifies this`diskType, this`deviceType, this`diskFmtType, this`diskCacheMode, this`sourcePath, this`sourceHost,
               this`sourcePort, this`authUserName, this`authSecretUuid, this`diskLabel, this`bus, this`diskProtocol
      ensures diskType == Some(Network) && deviceType == Some(Disk) && diskFmtType == fmt && diskCacheMode == Some(CacheNone)
      ensures sourcePath == diskName && sourceHost == host && sourcePort == port
      ensures authUserName == user && authSecretUuid == secretUuid
      ensures diskLabel == Some(DevLabel(devId, b)) && bus == b && diskProtocol == protocol
    {
      DefNetworkBasedDisk(diskName, host, port, user, secretUuid, Some(DevLabel(devId, b)), b, protocol, fmt);
    }

    /** A disk on network storage with an explicit label. */
    method DefNetworkBasedDisk(diskName: Option<string>, host: Option<string>, port: Int32, user: Option<string>,
                               secretUuid: Option<string>, targetLabel: Option<string>, b: Option<DiskBus>,
                               protocol: Option<DiskProtocol>, fmt: Option<DiskFmtType>)
      modifies this`diskType, this`deviceType, this`diskFmtType, this`diskCacheMode, this`sourcePath, this`sourceHost,
               this`sourcePort, this`authUserName, this`authSecretUuid, this`diskLabel, this`bus, this`diskProtocol
      ensures diskType == Some(Network) && deviceType == Some(Disk) && diskFmtType == fmt && diskCacheMode == Some(CacheNone)
      ensures sourcePath == diskName && sourceHost == host && sourcePort == port
      ensures authUserName == user && authSecretUuid == secretUuid
      ensures diskLabel == targetLabel && bus == b && diskProtocol == protocol
    {
      diskType, deviceType, diskFmtType, diskCacheMode := Some(Network), Some(Disk), fmt, Some(CacheNone);
      diskLabel, bus := targetLabel, b;
      SetNetworkSource(diskName, host, port, user, secretUuid, protocol);
    }

    /** The network source shared by both network builders: image, host, credentials, protocol. */
    method SetNetworkSource(diskName: Option<string>, host: Option<string>, port: Int32, user: Option<string>,
                            secretUuid: Option<string>, protocol: Option<DiskProtocol>)
      modifies this`sourcePath, this`sourceHost, this`sourcePort, this`authUserName, this`authSecretUuid, this`diskProtocol
      ensures sourcePath == diskName && sourceHost == host && sourcePort == port
      ensures authUserName == user && authSecretUuid == secretUuid && diskProtocol == protocol
    {
      sourcePath, sourceHost, sourcePort := diskName, host, port;
      authUserName, authSecretUuid, diskProtocol := user, secretUuid, protocol;
    }

    method SetReadonly()
      modifies this`readonly
      ensures readonly
    {
      readonly := true;
    }

    method SetSharable()
      modifies this`shareable
      ensures shareable
    {
      shareable := true;
    }

    method SetAttachDeferred(defer: bool)
      modifies this`deferAttach
      ensures deferAttach == defer
    {
      deferAttach := defer;
    }

    method SetDiskPath(volPath: Option<string>)
      modifies this`sourcePath
      ensures sourcePath == volPath
    {
      sourcePath := volPath;
    }

    method SetBytesReadRate(rate: Option<Int64>)
      modifies this`bytesReadRate
      ensures bytesReadRate == rate
    {
      bytesReadRate := rate;
    }

    method SetBytesWriteRate(rate: Option<Int64>)
      modifies this`bytesWriteRate
      ensures bytesWriteRate == rate
    {
      bytesWriteRate := rate;
    }

    method SetIopsReadRate(rate: Option<Int64>)
      modifies this`iopsReadRate
      ensures iopsReadRate == rate
    {
      iopsReadRate := rate;
    }

    method SetIopsWriteRate(rate: Option<Int64>)
      modifies this`iopsWriteRate
      ensures iopsWriteRate == rate
    {
      iopsWriteRate := rate;
    }

    method SetCacheMode(mode: Option<DiskCacheMode>)
      modifies this`diskCacheMode
      ensures diskCacheMode == mode
    {
      diskCacheMode := mode;
    }

    method SetQemuDriver(on: bool)
      modifies this`qemuDriver
      ensures qemuDriver == on
    {
      qemuDriver := on;
    }

    method SetSerial(s: Option<string>)
      modifies this`serial
      ensures serial == s
    {
      serial := s;
    }

    /** getDiskSeq; None where the source throws (a null or empty label). */
    function DiskSeq(): Option<int>
      reads this
    {
      if diskLabel.Some? then DiskSeqOf(diskLabel.value) else None
    }

    /*** Rendering (toString) ***/

    function OpenTag(): string
      reads this
    {
      "<disk " + (if deviceType.Some? then " device='" + deviceType.value.Name() + "'" else "")
      + " type='" + DiskTypeText(diskType) + "'>\n"
    }

    function DriverLines(): seq<string>
      reads this
    {
      if qemuDriver then ["<driver name='qemu' type='" + FmtText(diskFmtType) + "' cache='" + CacheText(diskCacheMode) + "' />\n"]
      else []
    }

    function NetworkSourceTag(): string
      reads this
    {
      "<source  protocol='" + ProtocolText(diskProtocol) + "' name='" + OrNull(sourcePath) + "'>\n"
    }

    function HostTag(): string
      reads this
    {
      "<host name='" + OrNull(sourceHost) + (if sourcePort != 0 then "' port='" + IntToString(sourcePort) else "") + "'/>\n"
    }

    function AuthLines(): seq<string>
      reads this
    {
      if authUserName.Some? then
        ["<auth username='" + authUserName.value + "'>\n",
         "<secret type='ceph' uuid='" + OrNull(authSecretUuid) + "'/>\n",
         "</auth>\n"]
      else []
    }

    function SourceLines(): seq<string>
      reads this
    {
      if diskType == Some(File) then
        [if sourcePath.Some? then FileSource(sourcePath.value)
         else if deviceType == Some(Cdrom) then FileSource("") else "<source />\n"]
      else if diskType == Some(Block) then
        [if sourcePath.Some? then BlockSource(sourcePath.value) else "<source/>\n"]
      else if diskType == Some(Network) then
        [NetworkSourceTag(), HostTag(), "</source>\n"] + AuthLines()
      else []
    }

    function TargetTag(): string
      reads this
    {
      TargetElement(OrNull(diskLabel), bus)
    }

    function SerialLines(): seq<string>
      reads this
    {
      if serial.Some? && serial.value != "" && deviceType != Some(Lun) then ["<serial>" + serial.value + "</serial>"] else []
    }

    function Rate(k: RateKind): Option<Int64>
      reads this
    {
      match k
      case BytesRead => bytesReadRate
      case BytesWrite => bytesWriteRate
      case IopsRead => iopsReadRate
      case IopsWrite => iopsWriteRate
    }

    function RateLines(k: RateKind): seq<string>
      reads this
    {
      if Positive(Rate(k)) then [NumberElement(k.Tag(), Rate(k).value)] else []
    }

    /** Whether toString opens an <iotune> block. */
    predicate IoTuneWanted(v: Versions)
      reads this
    {
      deviceType != Some(Cdrom) && v.libvirt >= IoTuneLibvirt && v.qemu >= IoTuneQemu
      && (Positive(bytesReadRate) || Positive(bytesWriteRate) || Positive(iopsReadRate) || Positive(iopsWriteRate))
    }

    function IoTuneLines(v: Versions): seq<string>
      reads this
    {
      if IoTuneWanted(v) then
        ["<iotune>\n"] + RateLines(BytesRead) + RateLines(BytesWrite) + RateLines(IopsRead) + RateLines(IopsWrite)
        + ["</iotune>\n"]
      else []
    }

    /** The fragments toString appends, in order, one element per entry. */
    function Lines(v: Versions): seq<string>
      reads this
    {
      [OpenTag()] + DriverLines() + SourceLines() + [TargetTag()] + SerialLines() + IoTuneLines(v) + ["</disk>\n"]
    }

    /** toString: the <disk> fragment. */
    function Xml(v: Versions): string
      reads this
    {
      Join(Lines(v))
    }
  }

  /*** Which elements a disk emits ***/

  /** The elements each section can emit, told apart by the characters after '<'. */
  lemma FixedSigs(d: DiskDef)
    ensures Sig(d.OpenTag()) == ('d', 'i', 's')
    ensures Sig(d.TargetTag()) == ('t', 'a', 'r')
    ensures Sig("</disk>\n") == ('/', 'd', 'i')
    ensures forall l | l in d.DriverLines() :: Sig(l) == ('d', 'r', 'i')
    ensures forall l | l in d.SerialLines() :: Sig(l) == ('s', 'e', 'r')
  {
    OptionalSigs(d);
  }

  lemma OptionalSigs(d: DiskDef)
    ensures forall l | l in d.DriverLines() :: Sig(l) == ('d', 'r', 'i')
    ensures forall l | l in d.SerialLines() :: Sig(l) == ('s', 'e', 'r')
  {
    DriverShape(FmtText(d.diskFmtType), CacheText(d.diskCacheMode));
    SerialShape(d.serial.GetOr(""));
  }

  lemma DriverShape(fmt: string, cache: string)
    ensures Sig("<driver name='qemu' type='" + fmt + "' cache='" + cache + "' />\n") == ('d', 'r', 'i')
  {
  }

  lemma SerialShape(s: string)
    ensures Sig("<serial>" + s + "</serial>") == ('s', 'e', 'r')
  {
  }

  lemma AuthSigs(d: DiskDef)
    ensures forall l | l in d.AuthLines() :: Sig(l) in {('a', 'u', 't'), ('s', 'e', 'c'), ('/', 'a', 'u')}
  {
  }

  lemma SourceSigs(d: DiskDef)
    ensures forall l | l in d.SourceLines() ::
      Sig(l) in {('s', 'o', 'u'), ('h', 'o', 's'), ('/', 's', 'o'), ('a', 'u', 't'), ('s', 'e', 'c'), ('/', 'a', 'u')}
  {
    if d.diskType == Some(Network) {
      NetworkSigs(d);
      AuthSigs(d);
    }
  }

  lemma RateSig(d: DiskDef, k: RateKind)
    ensures forall l | l in d.RateLines(k) :: Sig(l).0 == 'r' || Sig(l).0 == 'w'
  {
  }

  lemma IoTuneSigs(d: DiskDef, v: Versions)
    ensures forall l | l in d.IoTuneLines(v) :: Sig(l).0 in {'i', 'r', 'w'} || Sig(l) == ('/', 'i', 'o')
  {
    RateSig(d, BytesRead);
    RateSig(d, BytesWrite);
    RateSig(d, IopsRead);
    RateSig(d, IopsWrite);
  }

  /** Between <iotune> and </iotune> there is nothing but rate elements. */
  lemma InsideIoTune(d: DiskDef, v: Versions, e: string)
    requires e in d.IoTuneLines(v) && e != "<iotune>\n" && e != "</iotune>\n"
    ensures exists k :: e in d.RateLines(k)
  {
    if e in d.RateLines(BytesRead) {
    } else if e in d.RateLines(BytesWrite) {
    } else if e in d.RateLines(IopsRead) {
    } else {
      assert e in d.RateLines(IopsWrite);
    }
  }

  /** Where in a disk's output a fragment can come from, by its opening characters. */
  lemma FragmentSection(d: DiskDef, v: Versions, l: string)
    requires l in d.Lines(v)
    ensures Sig(l) == ('d', 'r', 'i') ==> l in d.DriverLines()
    ensures Sig(l) == ('s', 'e', 'r') ==> l in d.SerialLines()
    ensures Sig(l) == ('h', 'o', 's') || Sig(l) == ('a', 'u', 't') ==> l in d.SourceLines()
    ensures Sig(l).0 == 'r' || Sig(l).0 == 'w' || Sig(l) == ('i', 'o', 't') ==> l in d.IoTuneLines(v)
  {
    FixedSigs(d);
    SourceSigs(d);
    IoTuneSigs(d, v);
  }

  lemma SectionInLines(d: DiskDef, v: Versions, l: string)
    requires l in d.DriverLines() || l in d.SourceLines() || l in d.SerialLines() || l in d.IoTuneLines(v)
    ensures l in d.Lines(v)
  {
  }

  /** Host and authentication fragments come only from a network source. */
  lemma SourceFragment(d: DiskDef, l: string)
    requires l in d.SourceLines()
    ensures Sig(l) == ('h', 'o', 's') ==> d.diskType == Some(Network)
    ensures Sig(l) == ('a', 'u', 't') ==> d.diskType == Some(Network) && d.authUserName.Some?
  {
    LocalSourceSig(d);
    if d.diskType == Some(Network) {
      NetworkSigs(d);
      if l !in d.AuthLines() {
        assert l in [d.NetworkSourceTag(), d.HostTag(), "</source>\n"];
      }
    }
  }

  lemma NetworkSigs(d: DiskDef)
    ensures Sig(d.NetworkSourceTag()) == ('s', 'o', 'u') && Sig(d.HostTag()) == ('h', 'o', 's')
    ensures Sig("</source>\n") == ('/', 's', 'o')
    ensures forall l | l in d.AuthLines() :: Sig(l) != ('h', 'o', 's')
    ensures d.diskType == Some(Network) ==> d.SourceLines() == [d.NetworkSourceTag(), d.HostTag(), "</source>\n"] + d.AuthLines()
  {
  }

  lemma LocalSourceSig(d: DiskDef)
    ensures d.diskType != Some(Network) ==> forall l | l in d.SourceLines() :: Sig(l) == ('s', 'o', 'u')
  {
  }

  lemma DriverOpening(d: DiskDef)
    requires d.qemuDriver
    ensures StartsWith(d.DriverLines()[0], "<driver ")
  {
    assert d.DriverLines()[0][..8] == "<driver ";
  }

  lemma HostOpening(d: DiskDef)
    ensures StartsWith(d.HostTag(), "<host ")
  {
    assert d.HostTag()[..6] == "<host ";
  }

  lemma AuthOpening(d: DiskDef)
    requires d.authUserName.Some?
    ensures StartsWith(d.AuthLines()[0], "<auth ")
  {
    assert d.AuthLines()[0][..6] == "<auth ";
  }

  /** A fragment opening one of the optional elements is there only under its condition. */
  lemma IoTuneFragment(d: DiskDef, v: Versions, l: string)
    requires l in d.Lines(v) && StartsWith(l, "<iotune>")
    ensures d.IoTuneWanted(v)
  {
    SigOf(l, "<iotune>");
    FragmentSection(d, v, l);
  }

  lemma DriverFragment(d: DiskDef, v: Versions, l: string)
    requires l in d.Lines(v) && StartsWith(l, "<driver ")
    ensures d.qemuDriver
  {
    SigOf(l, "<driver ");
    FragmentSection(d, v, l);
  }

  lemma HostFragment(d: DiskDef, v: Versions, l: string)
    requires l in d.Lines(v) && StartsWith(l, "<host ")
    ensures d.diskType == Some(Network)
  {
    SigOf(l, "<host ");
    FragmentSection(d, v, l);
    SourceFragment(d, l);
  }

  lemma AuthFragment(d: DiskDef, v: Versions, l: string)
    requires l in d.Lines(v) && StartsWith(l, "<auth ")
    ensures d.diskType == Some(Network) && d.authUserName.Some?
  {
    SigOf(l, "<auth ");
    FragmentSection(d, v, l);
    SourceFragment(d, l);
  }

  /** The <iotune> block is emitted exactly when the disk is not a CD-ROM, libvirt is at
      least 0.9.8, qemu at least 1.1.0 and at least one of the four rates is set and positive. */
  lemma IoTuneEmittedIff(d: DiskDef, v: Versions)
    ensures HasElement(d.Lines(v), "<iotune>") <==>
      d.deviceType != Some(Cdrom) && v.libvirt >= 9008 && v.qemu >= 1001000
      && (Positive(d.bytesReadRate) || Positive(d.bytesWriteRate) || Positive(d.iopsReadRate) || Positive(d.iopsWriteRate))
  {
    if HasElement(d.Lines(v), "<iotune>") {
      var l :| l in d.Lines(v) && StartsWith(l, "<iotune>");
      IoTuneFragment(d, v, l);
    }
    if d.IoTuneWanted(v) {
      assert "<iotune>\n" in d.Lines(v) && StartsWith("<iotune>\n", "<iotune>");
    }
  }

  /** Rate elements of different kinds or values never coincide. */
  lemma RateElementKinds(k: RateKind, j: RateKind, r: int, q: int)
    requires NumberElement(k.Tag(), r) == NumberElement(j.Tag(), q)
    ensures k == j && r == q
  {
    var a := NumberElement(k.Tag(), r);
    assert a[1] == k.Tag()[0] && a[6] == k.Tag()[5] && a[7] == k.Tag()[6];
    assert a[1] == j.Tag()[0] && a[6] == j.Tag()[5] && a[7] == j.Tag()[6];
    NumberElementInjective(k.Tag(), r, q);
  }

  /** Inside <iotune>, each limit's element carries that limit's value, and is emitted
      exactly when the block is and the limit is set and positive. */
  lemma RateElementIff(d: DiskDef, v: Versions, k: RateKind, r: int)
    ensures NumberElement(k.Tag(), r) in d.Lines(v) <==>
      d.deviceType != Some(Cdrom) && v.libvirt >= 9008 && v.qemu >= 1001000 && d.Rate(k) == Some(r) && r > 0
  {
    var e := NumberElement(k.Tag(), r);
    if e in d.Lines(v) {
      RateElementSig(k, r);
      FragmentSection(d, v, e);
      InIoTune(d, v, k, r);
    }
  }

  lemma RateElementSig(k: RateKind, r: int)
    ensures Sig(NumberElement(k.Tag(), r)).0 == 'r' || Sig(NumberElement(k.Tag(), r)).0 == 'w'
  {
  }

  /** Inside <iotune>, a rate element names its own limit and carries that limit's value. */
  lemma InIoTune(d: DiskDef, v: Versions, k: RateKind, r: int)
    requires NumberElement(k.Tag(), r) in d.IoTuneLines(v)
    ensures d.IoTuneWanted(v) && d.Rate(k) == Some(r) && r > 0
  {
    var e := NumberElement(k.Tag(), r);
    RateElementSig(k, r);
    InsideIoTune(d, v, e);
    var j :| e in d.RateLines(j);
    RateElementKinds(k, j, r, d.Rate(j).value);
  }

  /** The <driver> element is emitted exactly when the qemu driver is on. */
  lemma DriverEmittedIff(d: DiskDef, v: Versions)
    ensures HasElement(d.Lines(v), "<driver ") <==> d.qemuDriver
  {
    if d.qemuDriver {
      DriverEmitted(d, v);
    } else {
      DriverSuppressed(d, v);
    }
  }

  lemma DriverEmitted(d: DiskDef, v: Versions)
    requires d.qemuDriver
    ensures HasElement(d.Lines(v), "<driver ")
  {
    SectionInLines(d, v, d.DriverLines()[0]);
    DriverOpening(d);
  }

  lemma DriverSuppressed(d: DiskDef, v: Versions)
    requires !d.qemuDriver
    ensures !HasElement(d.Lines(v), "<driver ")
  {
    if HasElement(d.Lines(v), "<driver ") {
      var l :| l in d.Lines(v) && StartsWith(l, "<driver ");
      DriverFragment(d, v, l);
    }
  }

  /** A disk emits <serial> with exactly its serial text, and only when that text is set,
      non-empty and the disk is not a LUN. */
  lemma SerialEmittedIff(d: DiskDef, v: Versions, t: string)
    ensures ("<serial>" + t + "</serial>") in d.Lines(v) <==>
      d.serial == Some(t) && t != "" && d.deviceType != Some(Lun)
  {
    var e := "<serial>" + t + "</serial>";
    if e in d.Lines(v) {
      assert Sig(e) == ('s', 'e', 'r');
      FragmentSection(d, v, e);
      var u := d.serial.value;
      assert e == "<serial>" + u + "</serial>";
      assert e[8..|e| - 9] == t;
      assert e[8..|e| - 9] == u;
    }
  }

  /** Network disks name their host and only they do. */
  lemma HostEmittedIff(d: DiskDef, v: Versions)
    ensures HasElement(d.Lines(v), "<host ") <==> d.diskType == Some(Network)
    ensures d.diskType == Some(Network) ==> d.HostTag() in d.Lines(v)
  {
    if HasElement(d.Lines(v), "<host ") {
      var l :| l in d.Lines(v) && StartsWith(l, "<host ");
      HostFragment(d, v, l);
    }
    if d.diskType == Some(Network) {
      SectionInLines(d, v, d.HostTag());
      HostOpening(d);
    }
  }

  /** The host element carries a port attribute exactly when the port is non-zero, and
      its text reads back as the port. */
  lemma HostPortIff(d: DiskDef)
    ensures d.sourcePort == 0 <==> d.HostTag() == "<host name='" + OrNull(d.sourceHost) + "'/>\n"
    ensures d.sourcePort != 0 ==>
      d.HostTag() == "<host name='" + OrNull(d.sourceHost) + "' port='" + IntToString(d.sourcePort) + "'/>\n"
      && ParseInt(IntToString(d.sourcePort)) == Some(d.sourcePort as int)
  {
    IntToStringRoundTrip(d.sourcePort);
  }

  /** A network disk that names a user emits its authentication: the user and the ceph secret. */
  lemma AuthLinesInSource(d: DiskDef, v: Versions)
    requires d.diskType == Some(Network) && d.authUserName.Some?
    ensures ("<auth username='" + d.authUserName.value + "'>\n") in d.Lines(v)
    ensures ("<secret type='ceph' uuid='" + OrNull(d.authSecretUuid) + "'/>\n") in d.Lines(v)
  {
    SectionInLines(d, v, d.AuthLines()[0]);
    SectionInLines(d, v, d.AuthLines()[1]);
  }

  /** Authentication is emitted only for network disks that name a user. */
  lemma AuthEmittedIff(d: DiskDef, v: Versions)
    ensures HasElement(d.Lines(v), "<auth ") <==> d.diskType == Some(Network) && d.authUserName.Some?
  {
    if HasElement(d.Lines(v), "<auth ") {
      var l :| l in d.Lines(v) && StartsWith(l, "<auth ");
      AuthFragment(d, v, l);
    }
    if d.diskType == Some(Network) && d.authUserName.Some? {
      AuthLinesInSource(d, v);
      AuthOpening(d);
    }
  }

  /*** What the source and the target show ***/

  lemma SourceFragmentAt(d: DiskDef, v: Versions, l: string)
    requires l in d.Lines(v) && Sig(l) == ('s', 'o', 'u')
    ensures l in d.SourceLines()
  {
    FixedSigs(d);
    IoTuneSigs(d, v);
  }

  lemma TargetFragmentAt(d: DiskDef, v: Versions, l: string)
    requires l in d.Lines(v) && Sig(l) == ('t', 'a', 'r')
    ensures l == d.TargetTag()
  {
    FixedSigs(d);
    SourceSigs(d);
    IoTuneSigs(d, v);
  }

  /** A disk always has one target, and it shows the disk's label (null when unset) and
      bus; a quote-free label is read back from it. */
  lemma TargetShownIff(d: DiskDef, v: Versions, tag: string, bus: Option<DiskBus>)
    requires NoQuote(tag) && NoQuote(OrNull(d.diskLabel))
    ensures d.TargetTag() in d.Lines(v)
    ensures TargetElement(tag, bus) in d.Lines(v) <==> OrNull(d.diskLabel) == tag && d.bus == bus
  {
    if TargetElement(tag, bus) in d.Lines(v) {
      ShowOneSigs("", tag, bus);
      TargetFragmentAt(d, v, TargetElement(tag, bus));
      TargetElementInjective(tag, bus, OrNull(d.diskLabel), d.bus);
    }
  }

  /** A file disk names its file; with no path, a CD-ROM names the empty file and other
      devices name none. */
  lemma FileSourceIff(d: DiskDef, v: Versions, p: string)
    requires d.diskType == Some(File)
    ensures FileSource(p) in d.Lines(v) <==>
      d.sourcePath == Some(p) || (p == "" && d.sourcePath.None? && d.deviceType == Some(Cdrom))
  {
    var s := d.SourceLines()[0];
    assert s in d.SourceLines();
    SectionInLines(d, v, s);
    if FileSource(p) in d.Lines(v) {
      ShowOneSigs(p, "", None);
      SourceFragmentAt(d, v, FileSource(p));
      if d.sourcePath.Some? {
        FileSourceInjective(p, d.sourcePath.value);
      } else if d.deviceType == Some(Cdrom) {
        FileSourceInjective(p, "");
      }
    }
  }

  /** A block disk names its device exactly when a path is set. */
  lemma BlockSourceIff(d: DiskDef, v: Versions, p: string)
    requires d.diskType == Some(Block)
    ensures BlockSource(p) in d.Lines(v) <==> d.sourcePath == Some(p)
  {
    var s := d.SourceLines()[0];
    assert s in d.SourceLines();
    SectionInLines(d, v, s);
    if BlockSource(p) in d.Lines(v) {
      ShowOneSigs(p, "", None);
      SourceFragmentAt(d, v, BlockSource(p));
      if d.sourcePath.Some? {
        BlockSourceInjective(p, d.sourcePath.value);
      }
    }
  }

  /*** getDiskSeq on a descriptor ***/

  /** getDiskSeq fails exactly when the disk has no label or an empty one. */
  lemma DiskSeqFails(d: DiskDef)
    ensures d.DiskSeq().None? <==> d.diskLabel.None? || d.diskLabel.value == ""
  {
  }

  /** A disk labelled from its device id on its own bus reports that id back. */
  lemma DiskSeqOfComputedLabel(d: DiskDef, devId: int)
    requires -('a' as int) <= devId < 0x1_0000 - 'a' as int && Representable(SuffixCode(devId))
    requires d.diskLabel == Some(DevLabel(devId, d.bus))
    ensures d.DiskSeq() == Some(if devId == 2 then 3 else devId)
  {
    DiskSeqInvertsDevLabel(devId, d.bus);
  }
}
