/** The version context a rendering is made in: the libvirt library version and the
    qemu emulator version, as the numbers libvirt reports (0.9.8 is 9008, qemu 1.1.0 is
    1001000). The source keeps them in two process-wide static fields; here they are an
    immutable value handed to every renderer that is gated by them. */
module Context {
  import opened Text

  datatype Versions = Versions(libvirt: Int64, qemu: Int64)

  /** libvirt 0.9.8 and qemu 1.1.0 are the first to accept a disk's <iotune> block. */
  const IoTuneLibvirt: int := 9008
  const IoTuneQemu: int := 1001000

  /** libvirt 0.9.4 is the first to accept an interface's <bandwidth> block. */
  const BandwidthLibvirt: int := 9004
}
