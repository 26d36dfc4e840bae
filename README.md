# LibvirtVmDef in Dafny

This project models the CloudStack KVM agent's libvirt domain builder, `LibvirtVmDef`.
That class and its nested descriptor classes assemble the XML text of a libvirt domain.
Each descriptor (guest OS, resources, features, Hyper-V enlightenments, lifecycle
policies, clock, CPU tuning, CPU mode, devices, disks, interfaces, consoles, serial
ports, video, agent channels, graphics, input, file systems, metadata, Nuage extension)
is filled in by setters and `def*` builders. Each one renders its own element with
`toString`. The root keeps one descriptor per class and renders them inside `<domain>`.

How the model is laid out:

- Descriptors whose fields the source updates in place are Dafny classes. Their setters
  carry `modifies` frames. Descriptors whose fields are never changed after
  construction (console, serial, video, graphics, input, file system) are datatypes.
- Java `null` is `Option.None`. String concatenation of a null prints `null` (`Text.OrNull`).
- Each renderer is a function `Lines()`, the fragments in emission order, and
  `Xml() == Join(Lines())`. Where the source renders with a loop there is also a
  `ToString` method with a `while` loop proved equal to `Xml()`.
- A `NullPointerException` that the devices section can raise makes the text `None`.
  One case is an LXC disk without a disk type. Another is an interface with a null
  rate on a libvirt that wants bandwidth.
- The libvirt and QEMU versions are static globals in the source. Here they are an
  explicit `Context.Versions` parameter.
- Both maps the root relies on are Java `HashMap`s: the sections keyed by class, and the
  device lists keyed by class. In the model each map keeps its keys and is walked in the
  order of a sixteen-slot table (`HashOrder.IterationOrder`).
  - Slots of the sections: devices 2; resources and CPU mode 3; guest 4; metadata 6;
    clock and CPU tuning 8; features 9; lifecycle policy 10.
  - Slots of the devices: channel 1; graphics 3; disk 6; file system 7; interface 9;
    console, serial and input 14; video 15.
  - Slots of the Hyper-V enlightenments: relaxed 0, vapic 3, spinlocks 12.
  - Keys sharing a slot come out in insertion order.
- Two quirks of the source are kept as written:
  - `on_crash` shows the power-off policy.
  - The console's `tty='…'` attribute follows the type attribute with no space.

## Model

Rows name the members whose contracts state a property. The rendering functions
(`Lines`, `Xml`, `OutcomeOf`, `Component.Outcome`, `DiskSeq`, `DiskSeqOf`, and the
descriptors' element builders) are the definitions those contracts are about and have
no rows of their own; the lemmas about each cite the lines the function models.

| member | source | states |
|---|---|---|
| Disks.DevLabel | src/main/java/com/cloud/hypervisor/kvm/resource/LibvirtVmDef.java:592-605 | a device label is always three characters long |
| Disks.DevLabelLetters | src/main/java/com/cloud/hypervisor/kvm/resource/LibvirtVmDef.java:592-605 | for device ids 0..25 the label is `sd`/`vd`/`hd` by bus, then the letter `'a' + id`, except that id 2 is shifted to `d` |
| Disks.DiskSeqInvertsDevLabel | src/main/java/com/cloud/hypervisor/kvm/resource/LibvirtVmDef.java:715-718 | for every id with -97 ≤ id < 65439 (no wrap-around) whose code is not a surrogate, getDiskSeq of a generated label gives back the device id, and 3 for id 2 |
| Disks.DevLabelCollisions | src/main/java/com/cloud/hypervisor/kvm/resource/LibvirtVmDef.java:592-605 | for ids in -97 ≤ id < 65439 whose codes are not surrogates, two ids get the same label exactly when they are equal or are 2 and 3 |
| Disks.IsoSlotReserved | src/main/java/com/cloud/hypervisor/kvm/resource/LibvirtVmDef.java:607-615 | the ISO label `hdc` has sequence 2, and no label generated from an id in -97 ≤ id < 65439 (code not a surrogate) is `hdc` |
| Disks.DiskSeqRange | src/main/java/com/cloud/hypervisor/kvm/resource/LibvirtVmDef.java:715-718 | getDiskSeq reads the last UTF-16 code unit: the result lies in -97 ≤ r < 65439, equals the last character minus `a` inside the Basic Multilingual Plane, and for a last character outside it is the position of its low surrogate (0xDC00-97 ≤ r < 0xE000-97) |
| Disks.DiskSeqFails | src/main/java/com/cloud/hypervisor/kvm/resource/LibvirtVmDef.java:715-718 | getDiskSeq fails (throws) exactly when the label is null or empty |
| Disks.DiskSeqOfComputedLabel | src/main/java/com/cloud/hypervisor/kvm/resource/LibvirtVmDef.java:715-718 | a disk labelled from device id on its own bus reports that id back, 3 for id 2 |
| Disks.DiskDef.constructor | src/main/java/com/cloud/hypervisor/kvm/resource/LibvirtVmDef.java:544-564 | a new disk has no fields set and uses the QEMU driver |
| Disks.DiskDef.SetDeviceType | src/main/java/com/cloud/hypervisor/kvm/resource/LibvirtVmDef.java:566-568 | sets the device type |
| Disks.DiskDef.DefFileBasedDisk | src/main/java/com/cloud/hypervisor/kvm/resource/LibvirtVmDef.java:570-579 | a file disk with the given label, bus and format, and cache mode none |
| Disks.DiskDef.DefFileBasedDiskAt | src/main/java/com/cloud/hypervisor/kvm/resource/LibvirtVmDef.java:581-589 | a file disk labelled from its device id |
| Disks.DiskDef.DefIsoDisk | src/main/java/com/cloud/hypervisor/kvm/resource/LibvirtVmDef.java:607-615 | an IDE cdrom, raw format, labelled `hdc` |
| Disks.DiskDef.DefBlockBasedDiskAt | src/main/java/com/cloud/hypervisor/kvm/resource/LibvirtVmDef.java:617-625 | a raw block disk labelled from its device id |
| Disks.DiskDef.DefBlockBasedDisk | src/main/java/com/cloud/hypervisor/kvm/resource/LibvirtVmDef.java:627-635 | a raw block disk with the given label |
| Disks.DiskDef.DefNetworkBasedDiskAt | src/main/java/com/cloud/hypervisor/kvm/resource/LibvirtVmDef.java:637-652 | a network disk with host, port, credentials and protocol, labelled from its device id |
| Disks.DiskDef.DefNetworkBasedDisk | src/main/java/com/cloud/hypervisor/kvm/resource/LibvirtVmDef.java:654-669 | a network disk with the given label |
| Disks.DiskDef.SetReadonly | src/main/java/com/cloud/hypervisor/kvm/resource/LibvirtVmDef.java:671-673 | marks the disk read-only |
| Disks.DiskDef.SetSharable | src/main/java/com/cloud/hypervisor/kvm/resource/LibvirtVmDef.java:675-677 | marks the disk shareable |
| Disks.DiskDef.SetAttachDeferred | src/main/java/com/cloud/hypervisor/kvm/resource/LibvirtVmDef.java:679-681 | sets deferred attachment |
| Disks.DiskDef.SetDiskPath | src/main/java/com/cloud/hypervisor/kvm/resource/LibvirtVmDef.java:703-705 | sets the source path |
| Disks.DiskDef.SetBytesReadRate | src/main/java/com/cloud/hypervisor/kvm/resource/LibvirtVmDef.java:720-722 | sets the read byte rate |
| Disks.DiskDef.SetBytesWriteRate | src/main/java/com/cloud/hypervisor/kvm/resource/LibvirtVmDef.java:724-726 | sets the write byte rate |
| Disks.DiskDef.SetIopsReadRate | src/main/java/com/cloud/hypervisor/kvm/resource/LibvirtVmDef.java:728-730 | sets the read IOPS rate |
| Disks.DiskDef.SetIopsWriteRate | src/main/java/com/cloud/hypervisor/kvm/resource/LibvirtVmDef.java:732-734 | sets the write IOPS rate |
| Disks.DiskDef.SetCacheMode | src/main/java/com/cloud/hypervisor/kvm/resource/LibvirtVmDef.java:736-738 | sets the cache mode |
| Disks.DiskDef.SetQemuDriver | src/main/java/com/cloud/hypervisor/kvm/resource/LibvirtVmDef.java:744-746 | switches the driver element on or off |
| Disks.DiskDef.SetSerial | src/main/java/com/cloud/hypervisor/kvm/resource/LibvirtVmDef.java:748-750 | sets the serial number |
| Disks.IoTuneEmittedIff | src/main/java/com/cloud/hypervisor/kvm/resource/LibvirtVmDef.java:809-828 | `<iotune>` appears iff the disk is not a cdrom, libvirt ≥ 9008, QEMU ≥ 1001000 and some rate is positive |
| Disks.RateElementIff | src/main/java/com/cloud/hypervisor/kvm/resource/LibvirtVmDef.java:809-828 | each rate element appears iff iotune is wanted and that rate is set, positive and equal to the shown value |
| Disks.DriverEmittedIff | src/main/java/com/cloud/hypervisor/kvm/resource/LibvirtVmDef.java:761-764 | the `<driver>` element appears iff the QEMU driver is on |
| Disks.SerialEmittedIff | src/main/java/com/cloud/hypervisor/kvm/resource/LibvirtVmDef.java:805-807 | `<serial>t</serial>` appears iff the serial is t, non-empty, and the device is not a LUN |
| Disks.HostEmittedIff | src/main/java/com/cloud/hypervisor/kvm/resource/LibvirtVmDef.java:780-792 | a `<host>` element appears iff the disk is a network disk |
| Disks.HostPortIff | src/main/java/com/cloud/hypervisor/kvm/resource/LibvirtVmDef.java:785-791 | the host element carries a port attribute iff the port is non-zero |
| Disks.AuthEmittedIff | src/main/java/com/cloud/hypervisor/kvm/resource/LibvirtVmDef.java:793-797 | `<auth>` appears iff the disk is a network disk with a user name |
| Disks.AuthLinesInSource | src/main/java/com/cloud/hypervisor/kvm/resource/LibvirtVmDef.java:793-797 | a network disk with a user name shows that user name and the Ceph secret UUID |
| Disks.TargetShownIff | src/main/java/com/cloud/hypervisor/kvm/resource/LibvirtVmDef.java:799-803 | every disk has a target; a target element with a quote-free label appears iff it shows the disk's label (`null` when unset) and its bus |
| Disks.FileSourceIff | src/main/java/com/cloud/hypervisor/kvm/resource/LibvirtVmDef.java:766-773 | a file disk's `<source file='p'/>` appears iff its path is p, or p is empty, no path is set and the device is a cdrom |
| Disks.BlockSourceIff | src/main/java/com/cloud/hypervisor/kvm/resource/LibvirtVmDef.java:774-779 | a block disk's `<source dev='p'/>` appears iff its path is p |
| Interfaces.InterfaceDef.constructor | src/main/java/com/cloud/hypervisor/kvm/resource/LibvirtVmDef.java:867-881 | a new interface has no fields set, VLAN tag -1 and PXE enabled |
| Interfaces.InterfaceDef.DefBridgeNet | src/main/java/com/cloud/hypervisor/kvm/resource/LibvirtVmDef.java:883-885 | a bridge interface with rate 0 |
| Interfaces.InterfaceDef.DefBridgeNetWithRate | src/main/java/com/cloud/hypervisor/kvm/resource/LibvirtVmDef.java:887-895 | a bridge interface with the given rate |
| Interfaces.InterfaceDef.DefDirectNet | src/main/java/com/cloud/hypervisor/kvm/resource/LibvirtVmDef.java:897-899 | a direct interface with rate 0 |
| Interfaces.InterfaceDef.DefDirectNetWithRate | src/main/java/com/cloud/hypervisor/kvm/resource/LibvirtVmDef.java:901-910 | a direct interface with source mode and rate |
| Interfaces.InterfaceDef.DefPrivateNet | src/main/java/com/cloud/hypervisor/kvm/resource/LibvirtVmDef.java:912-914 | a network interface with rate 0 |
| Interfaces.InterfaceDef.DefPrivateNetWithRate | src/main/java/com/cloud/hypervisor/kvm/resource/LibvirtVmDef.java:916-924 | a network interface with the given rate |
| Interfaces.InterfaceDef.DefEthernetWithScript | src/main/java/com/cloud/hypervisor/kvm/resource/LibvirtVmDef.java:926-928 | an ethernet interface with a script and rate 0 |
| Interfaces.InterfaceDef.DefEthernetWithRate | src/main/java/com/cloud/hypervisor/kvm/resource/LibvirtVmDef.java:930-939 | an ethernet interface named after its target, with script and rate |
| Interfaces.InterfaceDef.DefEthernet | src/main/java/com/cloud/hypervisor/kvm/resource/LibvirtVmDef.java:941-943 | an ethernet interface with no script and rate 0 |
| Interfaces.InterfaceDef.SetHostNetType | src/main/java/com/cloud/hypervisor/kvm/resource/LibvirtVmDef.java:945-947 | sets the host NIC type |
| Interfaces.InterfaceDef.SetPxeDisable | src/main/java/com/cloud/hypervisor/kvm/resource/LibvirtVmDef.java:953-955 | sets whether PXE is disabled |
| Interfaces.InterfaceDef.SetVirtualPortType | src/main/java/com/cloud/hypervisor/kvm/resource/LibvirtVmDef.java:981-983 | sets the virtual port type |
| Interfaces.InterfaceDef.SetVirtualPortInterfaceId | src/main/java/com/cloud/hypervisor/kvm/resource/LibvirtVmDef.java:989-991 | sets the virtual port interface id |
| Interfaces.InterfaceDef.SetVlanTag | src/main/java/com/cloud/hypervisor/kvm/resource/LibvirtVmDef.java:997-999 | sets the VLAN tag |
| Interfaces.InterfaceDef.Xml | src/main/java/com/cloud/hypervisor/kvm/resource/LibvirtVmDef.java:1006-1049 | the interface renders unless a null rate must be unboxed for bandwidth |
| Interfaces.BandwidthEmittedIff | src/main/java/com/cloud/hypervisor/kvm/resource/LibvirtVmDef.java:1025-1030 | `<bandwidth>` appears iff libvirt ≥ 9004 and the rate is positive |
| Interfaces.RateLimitIff | src/main/java/com/cloud/hypervisor/kvm/resource/LibvirtVmDef.java:1025-1030 | an inbound or outbound element appears iff bandwidth is wanted, and its average and peak both equal the rate |
| Interfaces.VlanEmittedIff | src/main/java/com/cloud/hypervisor/kvm/resource/LibvirtVmDef.java:1044-1046 | the VLAN element appears iff 0 < tag < 4095, and shows exactly that tag |
| LeafDevices.ConsoleTargetIff | src/main/java/com/cloud/hypervisor/kvm/resource/LibvirtVmDef.java:1066-1082 | a console shows a target port iff its port is not -1, and shows that port |
| LeafDevices.ConsoleTtyPlacement | src/main/java/com/cloud/hypervisor/kvm/resource/LibvirtVmDef.java:1068-1072 | the tty attribute appears iff a tty path is set, directly after the type attribute |
| LeafDevices.SerialTargetIff | src/main/java/com/cloud/hypervisor/kvm/resource/LibvirtVmDef.java:1178-1189 | a serial port shows a target port iff its port is not -1, and shows that port |
| LeafDevices.CharDeviceTargetIff | src/main/java/com/cloud/hypervisor/kvm/resource/LibvirtVmDef.java:1066-1082 | the source path shows iff a source is set; the target shows iff the port is not -1 |
| LeafDevices.VideoShownIff | src/main/java/com/cloud/hypervisor/kvm/resource/LibvirtVmDef.java:1202-1211 | a video device renders nothing iff its model is null or empty or its RAM is 0 |
| LeafDevices.NewGraphicDef | src/main/java/com/cloud/hypervisor/kvm/resource/LibvirtVmDef.java:1246-1253 | a graphics device keeps its fields and stores the password escaped |
| LeafDevices.GraphicsAutoPortIff | src/main/java/com/cloud/hypervisor/kvm/resource/LibvirtVmDef.java:1256-1276 | `autoport` appears iff auto port is on |
| LeafDevices.GraphicsPortIff | src/main/java/com/cloud/hypervisor/kvm/resource/LibvirtVmDef.java:1256-1276 | an explicit port appears iff auto port is off and the port is not -2, and the port attribute showing p appears iff that holds and p is the port |
| LeafDevices.GraphicsPasswordIff | src/main/java/com/cloud/hypervisor/kvm/resource/LibvirtVmDef.java:1269-1273 | a password appears iff one is set, and the attribute showing p appears iff the password is p |
| LeafDevices.GraphicsKeymapIff | src/main/java/com/cloud/hypervisor/kvm/resource/LibvirtVmDef.java:1269-1273 | the keymap appears iff there is no password and a keymap is set, and the attribute showing k appears iff, with no password, the keymap is k |
| LeafDevices.InputBusIff | src/main/java/com/cloud/hypervisor/kvm/resource/LibvirtVmDef.java:1289-1297 | the input element has no bus attribute iff no bus is set, and is the element with bus b iff the bus is b |
| LeafDevices.FilesystemLinesInjective | src/main/java/com/cloud/hypervisor/kvm/resource/LibvirtVmDef.java:1310-1317 | two file systems that render alike have the same source and target |
| LeafDevices.VirtioSerialDef.constructor | src/main/java/com/cloud/hypervisor/kvm/resource/LibvirtVmDef.java:1218-1221 | a channel keeps its name and path |
| LeafDevices.VirtioSerialDef.ToString | src/main/java/com/cloud/hypervisor/kvm/resource/LibvirtVmDef.java:1224-1235 | renders the channel under its directory, the default one when no path is set, and writes that directory back as the path |
| LeafDevices.RenderTwice | src/main/java/com/cloud/hypervisor/kvm/resource/LibvirtVmDef.java:1224-1235 | rendering a channel twice gives the same text |
| Guest.GuestDef.constructor | src/main/java/com/cloud/hypervisor/kvm/resource/LibvirtVmDef.java:45-54 | a new guest has no fields set and no boot devices |
| Guest.GuestDef.SetGuestType | src/main/java/com/cloud/hypervisor/kvm/resource/LibvirtVmDef.java:56-58 | sets the guest type |
| Guest.GuestDef.SetGuestArch | src/main/java/com/cloud/hypervisor/kvm/resource/LibvirtVmDef.java:64-66 | sets the architecture |
| Guest.GuestDef.SetMachineType | src/main/java/com/cloud/hypervisor/kvm/resource/LibvirtVmDef.java:68-70 | sets the machine type |
| Guest.GuestDef.SetLoader | src/main/java/com/cloud/hypervisor/kvm/resource/LibvirtVmDef.java:72-74 | sets the loader |
| Guest.GuestDef.SetBootKernel | src/main/java/com/cloud/hypervisor/kvm/resource/LibvirtVmDef.java:76-81 | sets kernel, initrd, root device and command line |
| Guest.GuestDef.SetBootOrder | src/main/java/com/cloud/hypervisor/kvm/resource/LibvirtVmDef.java:83-85 | appends a boot device |
| Guest.GuestDef.SetUuid | src/main/java/com/cloud/hypervisor/kvm/resource/LibvirtVmDef.java:87-89 | sets the UUID |
| Guest.GuestDef.Xml | src/main/java/com/cloud/hypervisor/kvm/resource/LibvirtVmDef.java:92-131 | a guest renders text iff its type is KVM or LXC; otherwise toString returns null |
| Guest.GuestDef.ToString | src/main/java/com/cloud/hypervisor/kvm/resource/LibvirtVmDef.java:92-131 | the rendering method returns the guest's text |
| Guest.GuestDef.BootDevsText | src/main/java/com/cloud/hypervisor/kvm/resource/LibvirtVmDef.java:113-117 | the boot loop emits one boot element per boot device, in order |
| Guest.BootElementIff | src/main/java/com/cloud/hypervisor/kvm/resource/LibvirtVmDef.java:113-117 | a boot element appears in a KVM guest iff that device was added |
| Guest.BootOrderKept | src/main/java/com/cloud/hypervisor/kvm/resource/LibvirtVmDef.java:100-117 | the i-th boot element is the i-th boot device, right after the OS type line |
| Guest.GuestResourceDef.constructor | src/main/java/com/cloud/hypervisor/kvm/resource/LibvirtVmDef.java:134-139 | memory 0, current memory and vcpus -1, no backing, ballooning off |
| Guest.GuestResourceDef.SetMemorySize | src/main/java/com/cloud/hypervisor/kvm/resource/LibvirtVmDef.java:141-143 | sets the memory size |
| Guest.GuestResourceDef.SetCurrentMem | src/main/java/com/cloud/hypervisor/kvm/resource/LibvirtVmDef.java:145-147 | sets the current memory |
| Guest.GuestResourceDef.SetMemBacking | src/main/java/com/cloud/hypervisor/kvm/resource/LibvirtVmDef.java:149-151 | sets the memory backing |
| Guest.GuestResourceDef.SetVcpuNum | src/main/java/com/cloud/hypervisor/kvm/resource/LibvirtVmDef.java:153-155 | sets the vcpu count |
| Guest.GuestResourceDef.SetMemBallooning | src/main/java/com/cloud/hypervisor/kvm/resource/LibvirtVmDef.java:157-159 | sets ballooning |
| Guest.MemoryRendered | src/main/java/com/cloud/hypervisor/kvm/resource/LibvirtVmDef.java:162-180 | the memory element always appears, showing exactly the memory size |
| Guest.CurrentMemoryIff | src/main/java/com/cloud/hypervisor/kvm/resource/LibvirtVmDef.java:165-167 | the current memory element appears iff it is not -1, and shows it |
| Guest.BackingIff | src/main/java/com/cloud/hypervisor/kvm/resource/LibvirtVmDef.java:168-170 | `<memoryBacking><k/></memoryBacking>` appears iff the memory backing is k |
| Guest.VcpuIff | src/main/java/com/cloud/hypervisor/kvm/resource/LibvirtVmDef.java:176-178 | the vcpu element appears iff the count is not -1, and shows it |
| Guest.BalloonIff | src/main/java/com/cloud/hypervisor/kvm/resource/LibvirtVmDef.java:171-175 | the balloon block shows `virtio` when ballooning is on and `none` when off |
| Features.ValidFeatureNames | src/main/java/com/cloud/hypervisor/kvm/resource/LibvirtVmDef.java:197-205 | a feature name is valid iff it names an enlightenment |
| Features.EntriesOfComplete | src/main/java/com/cloud/hypervisor/kvm/resource/LibvirtVmDef.java:235-246 | every enlightenment that is set is rendered |
| Features.HyperVEnlightenmentFeatureDef.constructor | src/main/java/com/cloud/hypervisor/kvm/resource/LibvirtVmDef.java:208-209 | no enlightenments and 4096 retries |
| Features.HyperVEnlightenmentFeatureDef.SetFeature | src/main/java/com/cloud/hypervisor/kvm/resource/LibvirtVmDef.java:211-219 | switches a feature on only when asked to and the name is valid; otherwise nothing changes |
| Features.HyperVEnlightenmentFeatureDef.SetRetries | src/main/java/com/cloud/hypervisor/kvm/resource/LibvirtVmDef.java:221-225 | retries only grow, stay at least 4096, and take the new value iff it is not smaller |
| Features.HyperVEnlightenmentFeatureDef.ToString | src/main/java/com/cloud/hypervisor/kvm/resource/LibvirtVmDef.java:232-249 | the loop over the map emits the `<hyperv>` block |
| Features.EntryIff | src/main/java/com/cloud/hypervisor/kvm/resource/LibvirtVmDef.java:235-246 | an enlightenment line appears iff that enlightenment is set, and shows its state |
| Features.OnlySpinlocksRetries | src/main/java/com/cloud/hypervisor/kvm/resource/LibvirtVmDef.java:236-245 | a line has no retries attribute iff it is not spinlocks |
| Features.SpinlocksRetries | src/main/java/com/cloud/hypervisor/kvm/resource/LibvirtVmDef.java:239-241 | the spinlocks line determines the retry count |
| Features.HyperVNeverEmpty | src/main/java/com/cloud/hypervisor/kvm/resource/LibvirtVmDef.java:232-249 | the block is always closed by `</hyperv>`, even with no enlightenments |
| Features.FeaturesDef.constructor | src/main/java/com/cloud/hypervisor/kvm/resource/LibvirtVmDef.java:253-255 | no features and no Hyper-V block |
| Features.FeaturesDef.AddFeatures | src/main/java/com/cloud/hypervisor/kvm/resource/LibvirtVmDef.java:257-259 | appends a feature |
| Features.FeaturesDef.AddHyperVFeature | src/main/java/com/cloud/hypervisor/kvm/resource/LibvirtVmDef.java:261-263 | sets the Hyper-V block |
| Features.FeaturesDef.ToString | src/main/java/com/cloud/hypervisor/kvm/resource/LibvirtVmDef.java:266-280 | the loop emits the `<features>` section |
| Features.FeatureIff | src/main/java/com/cloud/hypervisor/kvm/resource/LibvirtVmDef.java:269-271 | a feature element appears iff a feature printing alike was added |
| Features.FeatureOrder | src/main/java/com/cloud/hypervisor/kvm/resource/LibvirtVmDef.java:268-271 | the i-th feature element is the i-th feature added |
| Features.HyperVIff | src/main/java/com/cloud/hypervisor/kvm/resource/LibvirtVmDef.java:272-274 | the Hyper-V block appears iff one was added |
| Clock.TermPolicy.constructor | src/main/java/com/cloud/hypervisor/kvm/resource/LibvirtVmDef.java:288-290 | all three policies start as `destroy` |
| Clock.TermPolicy.SetRebootPolicy | src/main/java/com/cloud/hypervisor/kvm/resource/LibvirtVmDef.java:292-294 | sets the reboot policy |
| Clock.TermPolicy.SetPowerOffPolicy | src/main/java/com/cloud/hypervisor/kvm/resource/LibvirtVmDef.java:296-298 | sets the power-off policy |
| Clock.TermPolicy.SetCrashPolicy | src/main/java/com/cloud/hypervisor/kvm/resource/LibvirtVmDef.java:300-311 | sets the crash policy, which leaves the rendered text unchanged |
| Clock.PolicyShown | src/main/java/com/cloud/hypervisor/kvm/resource/LibvirtVmDef.java:305-311 | each event element shows exactly one policy, and `on_crash` shows the power-off one |
| Clock.ClockDef.constructor | src/main/java/com/cloud/hypervisor/kvm/resource/LibvirtVmDef.java:336-338 | the offset starts as UTC, with no timer |
| Clock.ClockDef.SetClockOffset | src/main/java/com/cloud/hypervisor/kvm/resource/LibvirtVmDef.java:340-342 | sets the offset |
| Clock.ClockDef.SetTimer | src/main/java/com/cloud/hypervisor/kvm/resource/LibvirtVmDef.java:344-348 | sets the timer |
| Clock.ClockDef.SetTimerWithKvmClock | src/main/java/com/cloud/hypervisor/kvm/resource/LibvirtVmDef.java:350-353 | sets the timer and the kvmclock switch |
| Clock.ClockDef.Xml | src/main/java/com/cloud/hypervisor/kvm/resource/LibvirtVmDef.java:356-387 | the clock renders iff an offset is set (a null offset throws) |
| Clock.KvmClockAbsentIff | src/main/java/com/cloud/hypervisor/kvm/resource/LibvirtVmDef.java:366-368 | the timer is marked absent iff it is kvmclock and the switch is on |
| Clock.TickPolicyIff | src/main/java/com/cloud/hypervisor/kvm/resource/LibvirtVmDef.java:368-373 | otherwise a tick policy attribute opens the body iff one is set, and the body shows policy t iff the policy is t |
| Clock.TrackIff | src/main/java/com/cloud/hypervisor/kvm/resource/LibvirtVmDef.java:375-379 | otherwise the track attribute follows the tick policy iff a track is set, and shows t iff the track is t |
| Clock.TimerLineInjective | src/main/java/com/cloud/hypervisor/kvm/resource/LibvirtVmDef.java:361-383 | two timer lines with the same tuning are equal iff they name the same timer |
| Clock.TimerShownIff | src/main/java/com/cloud/hypervisor/kvm/resource/LibvirtVmDef.java:361-383 | the clock has a `<timer>` element iff a timer is set, and has the timer line for name n iff the timer is n |
| Clock.KvmClockSwitchOnlyKvmClock | src/main/java/com/cloud/hypervisor/kvm/resource/LibvirtVmDef.java:366-384 | the switch changes nothing for any other timer |
| Cpu.CpuTuneDef.constructor | src/main/java/com/cloud/hypervisor/kvm/resource/LibvirtVmDef.java:1086 | shares start at 0 |
| Cpu.CpuTuneDef.SetShares | src/main/java/com/cloud/hypervisor/kvm/resource/LibvirtVmDef.java:1088-1090 | sets the shares |
| Cpu.SharesIff | src/main/java/com/cloud/hypervisor/kvm/resource/LibvirtVmDef.java:1097-1104 | the shares element appears iff shares are positive, and shows them |
| Cpu.CpuModeDef.constructor | src/main/java/com/cloud/hypervisor/kvm/resource/LibvirtVmDef.java:1109-1113 | no mode, model or features; topology -1 |
| Cpu.CpuModeDef.SetMode | src/main/java/com/cloud/hypervisor/kvm/resource/LibvirtVmDef.java:1115-1117 | sets the mode |
| Cpu.CpuModeDef.SetFeatures | src/main/java/com/cloud/hypervisor/kvm/resource/LibvirtVmDef.java:1119-1123 | replaces the feature list only when given one |
| Cpu.CpuModeDef.SetModel | src/main/java/com/cloud/hypervisor/kvm/resource/LibvirtVmDef.java:1125-1127 | sets the model |
| Cpu.CpuModeDef.SetTopology | src/main/java/com/cloud/hypervisor/kvm/resource/LibvirtVmDef.java:1129-1132 | sets cores per socket and sockets |
| Cpu.CpuModeDef.ToString | src/main/java/com/cloud/hypervisor/kvm/resource/LibvirtVmDef.java:1135-1163 | the rendering method returns the CPU element |
| Cpu.CpuModeDef.FeaturesText | src/main/java/com/cloud/hypervisor/kvm/resource/LibvirtVmDef.java:1149-1153 | the loop emits one feature element per feature, in order |
| Cpu.KindOf | src/main/java/com/cloud/hypervisor/kvm/resource/LibvirtVmDef.java:1139-1148 | custom mode is chosen only when a model is set |
| Cpu.CustomAnyCase | src/main/java/com/cloud/hypervisor/kvm/resource/LibvirtVmDef.java:1139-1140 | a mode selects the custom model iff a model is set and the mode is six characters that lower-case (ASCII) to `custom` |
| Cpu.CustomNeedsModel | src/main/java/com/cloud/hypervisor/kvm/resource/LibvirtVmDef.java:1139-1148 | a mode equal to `custom` ignoring case, without a model, gives a bare `<cpu>` |
| Cpu.HostModesExact | src/main/java/com/cloud/hypervisor/kvm/resource/LibvirtVmDef.java:1141-1144 | the host-model and host-passthrough openings are chosen iff the mode is exactly that string |
| Cpu.OpeningDeterminesMode | src/main/java/com/cloud/hypervisor/kvm/resource/LibvirtVmDef.java:1139-1148 | the opening tag determines the mode, and for custom mode the model |
| Cpu.TopologyIff | src/main/java/com/cloud/hypervisor/kvm/resource/LibvirtVmDef.java:1155-1158 | the topology element appears iff sockets and cores are positive, and shows them |
| Cpu.FeatureIff | src/main/java/com/cloud/hypervisor/kvm/resource/LibvirtVmDef.java:1149-1153 | a feature element appears iff a feature printing alike is listed |
| Cpu.FeatureOrder | src/main/java/com/cloud/hypervisor/kvm/resource/LibvirtVmDef.java:1149-1153 | the i-th feature element is the i-th feature |
| HashOrder.IterationOrderIsPermutation | src/main/java/com/cloud/hypervisor/kvm/resource/LibvirtVmDef.java:424-425 | walking a map visits every key exactly once |
| HashOrder.IterationOrderSorted | src/main/java/com/cloud/hypervisor/kvm/resource/LibvirtVmDef.java:424-425 | the walk goes through the slots in increasing order |
| HashOrder.IterationOrderStable | src/main/java/com/cloud/hypervisor/kvm/resource/LibvirtVmDef.java:424-425 | keys sharing a slot keep their insertion order |
| Devices.DevicesDef.constructor | src/main/java/com/cloud/hypervisor/kvm/resource/LibvirtVmDef.java:390-393 | no emulator, no guest type, no devices |
| Devices.DevicesDef.SetEmulatorPath | src/main/java/com/cloud/hypervisor/kvm/resource/LibvirtVmDef.java:408-410 | sets the emulator |
| Devices.DevicesDef.SetGuestType | src/main/java/com/cloud/hypervisor/kvm/resource/LibvirtVmDef.java:412-414 | sets the guest type |
| Devices.DevicesDef.AddDevice | src/main/java/com/cloud/hypervisor/kvm/resource/LibvirtVmDef.java:395-406 | returns true and appends the device to its class's list, creating the list on first use |
| Devices.DevicesDef.GetDisks | src/main/java/com/cloud/hypervisor/kvm/resource/LibvirtVmDef.java:445-447 | the disk list, or null iff no disk was added |
| Devices.DevicesDef.GetInterfaces | src/main/java/com/cloud/hypervisor/kvm/resource/LibvirtVmDef.java:450-452 | the interface list, or null iff no interface was added |
| Devices.DevicesDef.ListsAsAdded | src/main/java/com/cloud/hypervisor/kvm/resource/LibvirtVmDef.java:445-452 | those lists hold every device of their class, in the order added |
| Devices.DevicesDef.SameKindInOrder | src/main/java/com/cloud/hypervisor/kvm/resource/LibvirtVmDef.java:424-439 | rendering visits the devices of each class in the order they were added |
| Devices.DevicesDef.InOrderSorted | src/main/java/com/cloud/hypervisor/kvm/resource/LibvirtVmDef.java:424-439 | rendering visits the classes in increasing slot order |
| Devices.DevicesDef.XmlIff | src/main/java/com/cloud/hypervisor/kvm/resource/LibvirtVmDef.java:417-442 | the section fails iff some visited device throws; otherwise it is the emulator line and the emitted devices inside `<devices>` |
| Devices.RenderOutcomesIff | src/main/java/com/cloud/hypervisor/kvm/resource/LibvirtVmDef.java:424-439 | concatenating device texts fails iff one of them throws |
| Devices.OutcomeIff | src/main/java/com/cloud/hypervisor/kvm/resource/LibvirtVmDef.java:426-437 | a device is skipped iff the guest is LXC and it is graphics, input or a typed non-block disk; it throws iff it is an LXC disk with no type or an interface whose rendering fails |
| Devices.DevicesDef.NonLxcRendersAll | src/main/java/com/cloud/hypervisor/kvm/resource/LibvirtVmDef.java:424-439 | outside LXC, when nothing throws, the section emits one text per device, each device's own, in the rendering order |
| Devices.LxcRendering | src/main/java/com/cloud/hypervisor/kvm/resource/LibvirtVmDef.java:426-436 | for an LXC guest the section is the non-LXC rendering of the devices left after dropping graphics, input and non-block disks |
| Devices.DevicesDef.ToString | src/main/java/com/cloud/hypervisor/kvm/resource/LibvirtVmDef.java:417-442 | returns the section's text; each channel rendered before any failure records its directory as its path, and nothing else changes |
| Devices.RecordDirs | src/main/java/com/cloud/hypervisor/kvm/resource/LibvirtVmDef.java:1226-1228 | the given channels get their directories as paths |
| Metadata.EntryInjective | src/main/java/com/cloud/hypervisor/kvm/resource/LibvirtVmDef.java:1359-1362 | an entry's MAC and router address are read back from its text |
| Metadata.PutShown | src/main/java/com/cloud/hypervisor/kvm/resource/LibvirtVmDef.java:1352-1364 | after a put, the MAC's entry shows exactly the new router address |
| Metadata.PutKeepsOthers | src/main/java/com/cloud/hypervisor/kvm/resource/LibvirtVmDef.java:1352-1364 | a put leaves every other MAC's entry as it was |
| Metadata.NuageExtensionDef.constructor | src/main/java/com/cloud/hypervisor/kvm/resource/LibvirtVmDef.java:1350 | no addresses |
| Metadata.NuageExtensionDef.AddNuageExtension | src/main/java/com/cloud/hypervisor/kvm/resource/LibvirtVmDef.java:1352-1354 | maps the MAC to the router address, replacing an earlier one |
| Metadata.NuageExtensionDef.ToString | src/main/java/com/cloud/hypervisor/kvm/resource/LibvirtVmDef.java:1357-1364 | the loop emits one entry per address |
| Metadata.MetadataDef.constructor | src/main/java/com/cloud/hypervisor/kvm/resource/LibvirtVmDef.java:1321 | no custom nodes |
| Metadata.MetadataDef.GetNuageNode | src/main/java/com/cloud/hypervisor/kvm/resource/LibvirtVmDef.java:1323-1335 | the node already held, or a new empty one that is stored |
| Metadata.MetadataDef.ToString | src/main/java/com/cloud/hypervisor/kvm/resource/LibvirtVmDef.java:1338-1346 | the node's text inside `<metadata>` |
| Metadata.GetNuageNodeTwice | src/main/java/com/cloud/hypervisor/kvm/resource/LibvirtVmDef.java:1323-1335 | asking twice gives the same node, which the section holds |
| Domain.LibvirtVmDef.constructor | src/main/java/com/cloud/hypervisor/kvm/resource/LibvirtVmDef.java:15-24 | no identity and no sections |
| Domain.LibvirtVmDef.SetHvsType | src/main/java/com/cloud/hypervisor/kvm/resource/LibvirtVmDef.java:1367-1369 | sets the hypervisor type |
| Domain.LibvirtVmDef.SetDomainName | src/main/java/com/cloud/hypervisor/kvm/resource/LibvirtVmDef.java:1391-1393 | sets the name |
| Domain.LibvirtVmDef.SetDomUuid | src/main/java/com/cloud/hypervisor/kvm/resource/LibvirtVmDef.java:1395-1397 | sets the UUID |
| Domain.LibvirtVmDef.SetDomDescription | src/main/java/com/cloud/hypervisor/kvm/resource/LibvirtVmDef.java:1399-1401 | sets the description |
| Domain.LibvirtVmDef.SetPlatformEmulator | src/main/java/com/cloud/hypervisor/kvm/resource/LibvirtVmDef.java:1407-1409 | sets the platform emulator |
| Domain.LibvirtVmDef.AddComp | src/main/java/com/cloud/hypervisor/kvm/resource/LibvirtVmDef.java:1415-1417 | stores the section under its class; the last one added wins and keeps the class's place |
| Domain.LibvirtVmDef.GetDevices | src/main/java/com/cloud/hypervisor/kvm/resource/LibvirtVmDef.java:1419-1425 | the devices section, or null iff none was added |
| Domain.LibvirtVmDef.GetMetaData | src/main/java/com/cloud/hypervisor/kvm/resource/LibvirtVmDef.java:1427-1434 | the metadata section already held, or a new empty one that is added |
| Domain.GetMetaDataTwice | src/main/java/com/cloud/hypervisor/kvm/resource/LibvirtVmDef.java:1427-1434 | asking twice gives the same section, which the domain holds |
| Domain.LibvirtVmDef.XmlIff | src/main/java/com/cloud/hypervisor/kvm/resource/LibvirtVmDef.java:1437-1452 | the domain fails iff a section throws; otherwise it is the identity lines, the sections' texts in map order, then `</domain>` |
| Domain.ComponentOutcomeIff | src/main/java/com/cloud/hypervisor/kvm/resource/LibvirtVmDef.java:1447-1449 | no section is skipped; a guest whose type has no rendering prints `null`; only a clock without offset or a failing devices section throws |
| Domain.LibvirtVmDef.UuidShownIff | src/main/java/com/cloud/hypervisor/kvm/resource/LibvirtVmDef.java:1441-1443 | the UUID line appears iff a UUID is set, and shows it |
| Domain.LibvirtVmDef.DescriptionShownIff | src/main/java/com/cloud/hypervisor/kvm/resource/LibvirtVmDef.java:1444-1446 | the description line appears iff a description is set, and shows it |
| Domain.LibvirtVmDef.SectionsOnce | src/main/java/com/cloud/hypervisor/kvm/resource/LibvirtVmDef.java:1447-1449 | each rendered section is the last one added for its class, and each held section is rendered exactly once |
| Domain.LibvirtVmDef.DevicesFirst | src/main/java/com/cloud/hypervisor/kvm/resource/LibvirtVmDef.java:1447-1449 | the devices section, when present, is rendered first |
| Domain.LibvirtVmDef.ToString | src/main/java/com/cloud/hypervisor/kvm/resource/LibvirtVmDef.java:1437-1452 | returns the domain's text; only the devices section's channels change, recording their directories |

## Left out

- Getters that only return a field are not modelled: getGuestType, getRetries, the DiskDef and InterfaceDef getters, getHvsType, getGuestOsType and getPlatformEmulator. Their fields are public state of the classes here.
- Static version globals and their setters (setGlobalLibvirtVersion, setLibvirtVersion, setGlobalQemuVersion, setQemuVersion): the versions are a `Versions` argument of every renderer that reads them.
- `StringEscapeUtils.escapeXml` is library code. It is a function parameter of `LeafDevices.NewGraphicDef`.
- MetadataDef.getMetadataNode creates nodes by reflection for any class. Only the Nuage extension node is modelled.
- Metadata.NuageExtensionDef.ToString: entries are rendered in first-put order, not in the HashMap's hash order of the MAC strings.
- Cpu.KindOf: the `equalsIgnoreCase` it uses is `Text.EqualsIgnoreCase`, which folds ASCII letters only. Java also folds some non-ASCII characters.
- Disks.DiskSeqOf: labels are sequences of Unicode scalars, not of UTF-16 code units, so a label holding an unpaired surrogate cannot be written; a last character outside the Basic Multilingual Plane is read as the low surrogate of its pair, which is what `charAt(length() - 1)` returns.
- Disks.DevLabel: Java narrows `'a' + devId` to a 16-bit char, and `SuffixCode` wraps the same way (modulo 2^16). A Dafny char cannot hold a UTF-16 surrogate, so ids whose code falls in 0xD800-0xDFFF are excluded.
- Disks.TargetShownIff: the label is read back only when it has no quote; a label with a quote can imitate the bus attribute.
- Java's 64-bit, 32-bit and 16-bit fields are subset types of `int`. No overflow happens in the modelled code.
- Cpu.CpuModeDef.SetFeatures copies the list; Java stores the caller's list by reference, so later changes by the caller are not seen.
- Devices.DevicesDef.AddDevice and Domain.LibvirtVmDef.AddComp accept only the descriptor classes modelled here. Java accepts any object.
- Devices.DevicesDef.ToString and Domain.LibvirtVmDef.ToString compute the text first and then record the channels' directories. Java interleaves the two. The final state is the same, because a channel renders the same directory before and after the write-back.
- Domain.LibvirtVmDef.ToString states the text as it was before the write-back; it does not restate the text after it.
- Devices.LxcRendering assumes every disk has a disk type. A disk without one throws, and `Devices.DevicesDef.XmlIff` covers that case.
- InterfaceDef's `ipAddr` field is never set or read by the source, so it is not modelled.
- Logging calls are not modelled.
