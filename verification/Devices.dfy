/** The thirteen kinds of devices as values, and what their two codecs compute. */
module Devices {
  import opened Text
  import opened Options

  datatype RosettaView = RosettaView(mountTag: string, installRosetta: bool, ignoreIfMissing: bool)
  datatype DiskView = DiskView(devName: string, readOnly: bool, imagePath: string, backend: string)
  datatype BlkView = BlkView(disk: DiskView, deviceIdentifier: string)
  datatype FsView = FsView(mountTag: string, sharedDir: string)
  /** An open file is its descriptor; the zero file, which only JSON can produce, has none. */
  datatype Socket = Descriptor(fd: nat) | NoDescriptor
  datatype NetView = NetView(
    usesNat: bool, mac: seq<Byte>, socket: Option<Socket>, unixSocketPath: string, vfkitMagic: bool)
  datatype SerialView = SerialView(logFile: string, usesStdio: bool, usesPty: bool, ptyName: string)
  datatype VsockView = VsockView(port: Uint32, socketURL: string, listen: bool)
  datatype InputView = InputView(inputType: string)
  datatype GpuView = GpuView(usesGUI: bool, width: Int64, height: Int64)
  /** uri is the embedded network storage; timeout counts nanoseconds, as time.Duration does. */
  datatype NbdStorageView = NbdStorageView(devName: string, readOnly: bool, uri: string)
  datatype NbdView = NbdView(storage: NbdStorageView, deviceIdentifier: string, timeout: Int64, syncMode: string)

  datatype Device =
    | Rosetta(rosetta: RosettaView)
    | Nvme(nvme: DiskView)
    | Blk(blk: BlkView)
    | Fs(fs: FsView)
    | Net(net: NetView)
    | Rng
    | Serial(serial: SerialView)
    | Vsock(vsock: VsockView)
    | Usb(usb: DiskView)
    | Input(input: InputView)
    | Gpu(gpu: GpuView)
    | Balloon
    | Nbd(nbd: NbdView)

  const NANOS_PER_MILLI := 1_000_000
  const DEFAULT_WIDTH := 800
  const DEFAULT_HEIGHT := 600

  // ---------- Fresh devices ----------

  const FRESH_ROSETTA := RosettaView("", false, false)
  const FRESH_FS := FsView("", "")
  const FRESH_NET := NetView(false, [], None, "", false)
  const FRESH_SERIAL := SerialView("", false, false, "")
  const FRESH_VSOCK := VsockView(0, "", false)
  const FRESH_INPUT := InputView("")
  const FRESH_GPU := GpuView(false, 0, 0)
  const FRESH_NBD := NbdView(NbdStorageView("nbd", false, ""), "", 15000 * NANOS_PER_MILLI, "full")

  function FreshDisk(devName: string): DiskView { DiskView(devName, false, "", "") }

  // ---------- Reading one option ----------

  function RosettaStep(d: RosettaView, o: Opt): Option<RosettaView> {
    match o.key
    case "mountTag" => Some(d.(mountTag := o.value))
    case "install" => Some(d.(installRosetta := true))
    case "ignore-if-missing" => Some(d.(ignoreIfMissing := true))
    case _ => None
  }

  predicate IsBackend(s: string) { s == "image" || s == "dev" || s == "" }

  function DiskStep(d: DiskView, o: Opt): Option<DiskView> {
    match o.key
    case "path" => Some(d.(imagePath := o.value))
    case "type" => if IsBackend(o.value) then Some(d.(backend := o.value)) else None
    case "readonly" => if o.value == "" then Some(d.(readOnly := true)) else None
    case _ => None
  }

  predicate IsDeviceId(o: Opt) { o.key == "deviceId" }

  function BlkStep(d: BlkView, o: Opt): Option<BlkView> {
    if IsDeviceId(o) then Some(d.(deviceIdentifier := o.value))
    else
      match DiskStep(d.disk, o)
      case None => None
      case Some(disk) => Some(d.(disk := disk))
  }

  function FsStep(d: FsView, o: Opt): Option<FsView> {
    match o.key
    case "sharedDir" => Some(d.(sharedDir := o.value))
    case "mountTag" => Some(d.(mountTag := o.value))
    case _ => None
  }

  /** What the virtio-net loop has seen so far, besides the device itself. */
  datatype NetScan = NetScan(dev: NetView, hasType: bool, typeOnly: bool)

  predicate IsPathOption(o: Opt) { o.key == "path" || o.key == "unixSocketPath" }

  function NetStep(st: NetScan, o: Opt): Option<NetScan> {
    match o.key
    case "nat" => if o.value == "" then Some(st.(dev := st.dev.(usesNat := true))) else None
    case "mac" => (
      match ParseMac(o.value)
      case None => None
      case Some(mac) => Some(st.(dev := st.dev.(mac := mac))))
    case "fd" => (
      match ParseInt(o.value, MAX_INT64)
      case None => None
      case Some(fd) => if 0 <= fd <= MAX_INT32 then Some(st.(dev := st.dev.(socket := Some(Descriptor(fd))))) else None)
    case "unixSocketPath" => Some(st.(dev := st.dev.(unixSocketPath := o.value)))
    case "type" => if o.value == "unixgram" then Some(st.(hasType := true)) else None
    case "path" => Some(st.(dev := st.dev.(unixSocketPath := o.value), typeOnly := true))
    case "vfkitMagic" =>
      if o.value == "on" || o.value == "off" then Some(st.(dev := st.dev.(vfkitMagic := o.value == "on"))) else None
    case "offloading" => if o.value == "off" then Some(st.(typeOnly := true)) else None
    case _ => None
  }

  function SerialStep(d: SerialView, o: Opt): Option<SerialView> {
    match o.key
    case "logFilePath" => Some(d.(logFile := o.value))
    case "stdio" => if o.value == "" then Some(d.(usesStdio := true)) else None
    case "pty" => Some(d.(usesPty := true))
    case _ => None
  }

  function VsockStep(d: VsockView, o: Opt): Option<VsockView> {
    match o.key
    case "socketURL" => Some(d.(socketURL := o.value))
    case "port" => (
      match ParseUint(o.value, MAX_UINT32)
      case None => None
      case Some(port) => if port <= MAX_UINT32 then Some(d.(port := port)) else None)
    case "listen" => Some(d.(listen := true))
    case "connect" => Some(d.(listen := false))
    case _ => None
  }

  function InputStep(d: InputView, o: Opt): Option<InputView> {
    if o.key == "pointing" || o.key == "keyboard" then
      if o.value == "" then Some(d.(inputType := o.key)) else None
    else None
  }

  /** strconv.Atoi, refused below 1. */
  function ParseDimension(s: string): Option<Int64> {
    match ParseInt(s, MAX_INT64)
    case None => None
    case Some(n) => if 1 <= n <= MAX_INT64 then Some(n) else None
  }

  function GpuStep(d: GpuView, o: Opt): Option<GpuView> {
    match o.key
    case "height" => (
      match ParseDimension(o.value)
      case None => None
      case Some(h) => Some(d.(height := h)))
    case "width" => (
      match ParseDimension(o.value)
      case None => None
      case Some(w) => Some(d.(width := w)))
    case _ => None
  }

  function NbdStorageStep(d: NbdStorageView, o: Opt): Option<NbdStorageView> {
    match o.key
    case "uri" => Some(d.(uri := o.value))
    case "readonly" => if o.value == "" then Some(d.(readOnly := true)) else None
    case _ => None
  }

  predicate IsNbdOwn(o: Opt) { o.key == "deviceId" || o.key == "timeout" || o.key == "sync" }

  function ParseTimeout(s: string): Option<Int64> {
    match ParseInt(s, MAX_INT32)
    case None => None
    case Some(ms) => if -MAX_INT32 - 1 <= ms <= MAX_INT32 then Some(ms * NANOS_PER_MILLI) else None
  }

  function NbdStep(d: NbdView, o: Opt): Option<NbdView> {
    match o.key
    case "deviceId" => Some(d.(deviceIdentifier := o.value))
    case "timeout" => (
      match ParseTimeout(o.value)
      case None => None
      case Some(timeout) => Some(d.(timeout := timeout)))
    case "sync" => if o.value == "full" || o.value == "none" then Some(d.(syncMode := o.value)) else None
    case _ =>
      match NbdStorageStep(d.storage, o)
      case None => None
      case Some(storage) => Some(d.(storage := storage))
  }

  // ---------- Validation ----------

  predicate SerialValid(d: SerialView) {
    && !(d.logFile != "" && d.usesStdio)
    && !(d.logFile != "" && d.usesPty)
    && !(d.usesStdio && d.usesPty)
    && !(d.logFile == "" && !d.usesStdio && !d.usesPty)
  }

  predicate InputValid(d: InputView) { d.inputType == "pointing" || d.inputType == "keyboard" }

  predicate GpuValid(d: GpuView) { !(d.height < 1 || d.width < 1) }

  predicate NetValid(d: NetView) {
    && !(d.usesNat && d.socket.Some?)
    && !(d.usesNat && d.unixSocketPath != "")
    && !(d.socket.Some? && d.unixSocketPath != "")
    && !(!d.usesNat && d.socket.None? && d.unixSocketPath == "")
  }

  // ---------- Reading a list of options (FromOptions) ----------

  function Checked<T>(r: Option<T>, valid: T -> bool): Option<T> {
    if r.Some? && valid(r.value) then r else None
  }

  function GpuDefaults(d: GpuView): GpuView {
    if d.width == 0 && d.height == 0 then d.(width := DEFAULT_WIDTH, height := DEFAULT_HEIGHT) else d
  }

  function GpuFromOptions(d: GpuView, opts: seq<Opt>): Option<GpuView> {
    match Fold(GpuStep, d, opts)
    case None => None
    case Some(r) => if GpuValid(GpuDefaults(r)) then Some(GpuDefaults(r)) else None
  }

  /** A path option anywhere in the list turns the vfkit magic packet on before the loop starts. */
  function NetPrescan(d: NetView, opts: seq<Opt>): NetView {
    if exists o :: o in opts && IsPathOption(o) then d.(vfkitMagic := true) else d
  }

  function NetAccept(st: NetScan): Option<NetView> {
    if st.hasType && st.dev.unixSocketPath == "" then None
    else if !st.hasType && st.typeOnly then None
    else if NetValid(st.dev) then Some(st.dev) else None
  }

  function NetFromOptions(d: NetView, opts: seq<Opt>): Option<NetView> {
    match Fold(NetStep, NetScan(NetPrescan(d, opts), false, false), opts)
    case None => None
    case Some(st) => NetAccept(st)
  }

  /** A disk oracle says which image paths hold a readable file that is not in qcow2 format. */
  type DiskOracle = string -> bool

  function BlkFromOptions(d: BlkView, opts: seq<Opt>, raw: DiskOracle): Option<BlkView> {
    match Fold(BlkStep, d, opts)
    case None => None
    case Some(r) => if raw(r.disk.imagePath) then Some(r) else None
  }

  datatype DeviceKind =
    | KRosetta | KNvme | KBlk | KFs | KNet | KRng | KSerial | KVsock | KUsb | KInput | KGpu | KBalloon | KNbd

  function KindOfDevice(d: Device): DeviceKind {
    match d
    case Rosetta(_) => KRosetta
    case Nvme(_) => KNvme
    case Blk(_) => KBlk
    case Fs(_) => KFs
    case Net(_) => KNet
    case Rng => KRng
    case Serial(_) => KSerial
    case Vsock(_) => KVsock
    case Usb(_) => KUsb
    case Input(_) => KInput
    case Gpu(_) => KGpu
    case Balloon => KBalloon
    case Nbd(_) => KNbd
  }

  function KindOf(name: string): Option<DeviceKind> {
    match name
    case "rosetta" => Some(KRosetta)
    case "nvme" => Some(KNvme)
    case "virtio-blk" => Some(KBlk)
    case "virtio-fs" => Some(KFs)
    case "virtio-net" => Some(KNet)
    case "virtio-rng" => Some(KRng)
    case "virtio-serial" => Some(KSerial)
    case "virtio-vsock" => Some(KVsock)
    case "usb-mass-storage" => Some(KUsb)
    case "virtio-input" => Some(KInput)
    case "virtio-gpu" => Some(KGpu)
    case "virtio-balloon" => Some(KBalloon)
    case "nbd" => Some(KNbd)
    case _ => None
  }

  function Tagged<T>(r: Option<T>, tag: T -> Device): Option<Device> {
    match r
    case None => None
    case Some(v) => Some(tag(v))
  }

  /** What reading opts into a fresh device of the given kind yields. */
  function FromOptions(kind: DeviceKind, opts: seq<Opt>, raw: DiskOracle): Option<Device> {
    match kind
    case KRosetta => Tagged(Fold(RosettaStep, FRESH_ROSETTA, opts), d => Rosetta(d))
    case KNvme => Tagged(Fold(DiskStep, FreshDisk("nvme"), opts), d => Nvme(d))
    case KBlk => Tagged(BlkFromOptions(BlkView(FreshDisk("virtio-blk"), ""), opts, raw), d => Blk(d))
    case KFs => Tagged(Fold(FsStep, FRESH_FS, opts), d => Fs(d))
    case KNet => Tagged(NetFromOptions(FRESH_NET, opts), d => Net(d))
    case KRng => if opts == [] then Some(Rng) else None
    case KSerial => Tagged(Checked(Fold(SerialStep, FRESH_SERIAL, opts), SerialValid), d => Serial(d))
    case KVsock => Tagged(Fold(VsockStep, FRESH_VSOCK.(listen := true), opts), d => Vsock(d))
    case KUsb => Tagged(Fold(DiskStep, FreshDisk("usb-mass-storage"), opts), d => Usb(d))
    case KInput => Tagged(Checked(Fold(InputStep, FRESH_INPUT, opts), InputValid), d => Input(d))
    case KGpu => Tagged(GpuFromOptions(FRESH_GPU, opts), d => Gpu(d))
    case KBalloon => if opts == [] then Some(Balloon) else None
    case KNbd => Tagged(Fold(NbdStep, FRESH_NBD, opts), d => Nbd(d))
  }

  function DeviceFromCmdLine(text: string, raw: DiskOracle): Option<Device> {
    var parts := Split(text, ',');
    match KindOf(parts[0])
    case None => None
    case Some(kind) => FromOptions(kind, OptionsOf(parts[1..]), raw)
  }

  // ---------- Printing (ToCmdLine): the text that follows --device ----------

  function If(condition: bool, text: string): string { if condition then text else "" }

  function DiskTail(d: DiskView): string {
    Setting("path", d.imagePath) + If(d.backend != "", Setting("type", d.backend)) + If(d.readOnly, Flag("readonly"))
  }

  function DiskText(d: DiskView): Option<string> {
    if d.imagePath == "" then None else Some(d.devName + DiskTail(d))
  }

  function BlkText(d: BlkView): Option<string> {
    match DiskText(d.disk)
    case None => None
    case Some(text) => Some(text + If(d.deviceIdentifier != "", Setting("deviceId", d.deviceIdentifier)))
  }

  /** Printing the descriptor of the zero file is a crash, which counts as a refusal here. */
  predicate NetPrintable(d: NetView) { NetValid(d) && d.socket != Some(NoDescriptor) }

  function NetAttachment(d: NetView): string
    requires NetPrintable(d)
  {
    if d.usesNat then Flag("nat")
    else if d.unixSocketPath != "" then
      if d.vfkitMagic then Setting("unixSocketPath", d.unixSocketPath)
      else Setting("type", "unixgram") + Setting("path", d.unixSocketPath) + Setting("vfkitMagic", "off")
    else Setting("fd", Dec(d.socket.value.fd))
  }

  function NetText(d: NetView): Option<string> {
    if !NetPrintable(d) then None
    else Some("virtio-net" + (NetAttachment(d) + If(d.mac != [], Setting("mac", MacString(d.mac)))))
  }

  function NbdStorageText(d: NbdStorageView): Option<string> {
    if d.uri == "" then None
    else Some(d.devName + (Setting("uri", d.uri) + If(d.readOnly, Flag("readonly"))))
  }

  /** time.Duration.Milliseconds truncates toward zero. */
  function Millis(timeout: int): int {
    if timeout >= 0 then timeout / NANOS_PER_MILLI else -((-timeout) / NANOS_PER_MILLI)
  }

  function NbdText(d: NbdView): Option<string> {
    match NbdStorageText(d.storage)
    case None => None
    case Some(text) =>
      Some(text
           + If(d.deviceIdentifier != "", Setting("deviceId", d.deviceIdentifier))
           + (if Millis(d.timeout) > 0 then Setting("timeout", Dec(Millis(d.timeout))) else "")
           + If(d.syncMode == "none" || d.syncMode == "full", Setting("sync", d.syncMode)))
  }

  function RosettaTail(d: RosettaView): string {
    Setting("mountTag", d.mountTag)
    + If(d.installRosetta, Flag("install"))
    + If(d.ignoreIfMissing, Flag("ignore-if-missing"))
  }

  function RosettaText(d: RosettaView): Option<string> {
    if d.mountTag == "" then None else Some("rosetta" + RosettaTail(d))
  }

  function FsTail(d: FsView): string {
    Setting("sharedDir", d.sharedDir) + If(d.mountTag != "", Setting("mountTag", d.mountTag))
  }

  function FsText(d: FsView): Option<string> {
    if d.sharedDir == "" then None else Some("virtio-fs" + FsTail(d))
  }

  function SerialTail(d: SerialView): string {
    if d.usesStdio then Flag("stdio") else if d.usesPty then Flag("pty") else Setting("logFilePath", d.logFile)
  }

  function SerialText(d: SerialView): Option<string> {
    if SerialValid(d) then Some("virtio-serial" + SerialTail(d)) else None
  }

  function VsockTail(d: VsockView): string {
    Setting("port", Dec(d.port)) + Setting("socketURL", d.socketURL) + Flag(if d.listen then "listen" else "connect")
  }

  function VsockText(d: VsockView): Option<string> {
    if d.port == 0 || d.socketURL == "" then None else Some("virtio-vsock" + VsockTail(d))
  }

  function InputText(d: InputView): Option<string> {
    if InputValid(d) then Some("virtio-input" + Flag(d.inputType)) else None
  }

  function GpuTail(d: GpuView): string
    requires GpuValid(d)
  {
    Setting("width", Dec(d.width)) + Setting("height", Dec(d.height))
  }

  function GpuText(d: GpuView): Option<string> {
    if GpuValid(d) then Some("virtio-gpu" + GpuTail(d)) else None
  }

  function DeviceText(d: Device): Option<string> {
    match d
    case Rosetta(v) => RosettaText(v)
    case Nvme(v) => DiskText(v)
    case Blk(v) => BlkText(v)
    case Fs(v) => FsText(v)
    case Net(v) => NetText(v)
    case Rng => Some("virtio-rng")
    case Serial(v) => SerialText(v)
    case Vsock(v) => VsockText(v)
    case Usb(v) => DiskText(v)
    case Input(v) => InputText(v)
    case Gpu(v) => GpuText(v)
    case Balloon => Some("virtio-balloon")
    case Nbd(v) => NbdText(v)
  }

  /** The arguments one device adds to a command line. */
  function DeviceArgs(d: Device): Option<seq<string>> {
    match DeviceText(d)
    case None => None
    case Some(text) => Some(["--device", text])
  }
}
