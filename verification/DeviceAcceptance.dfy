/** Exactly which option lists each kind of device accepts, and the device an accepted list describes: both are
    stated on the list alone, by the last option for each setting. */
module DeviceAcceptance {
  import opened Text
  import opened Options
  import opened Devices
  import NetAcceptance

  // ---------- One option ----------

  predicate IsOneOf(s: string, a: string, b: string) { s == a || s == b }

  /** What a single option must look like. */
  predicate Fits(kind: DeviceKind, o: Opt) {
    match kind
    case KRosetta => o.key == "mountTag" || o.key == "install" || o.key == "ignore-if-missing"
    case KNvme => FitsDisk(o)
    case KUsb => FitsDisk(o)
    case KBlk => o.key == "deviceId" || FitsDisk(o)
    case KFs => IsOneOf(o.key, "sharedDir", "mountTag")
    case KNet => NetAcceptance.WellFormed(o)
    case KSerial => IsOneOf(o.key, "logFilePath", "pty") || o == Opt("stdio", "")
    case KVsock =>
      o.key == "socketURL" || IsOneOf(o.key, "listen", "connect")
      || (o.key == "port" && ParseUint(o.value, 0xFFFF_FFFF).Some?)
    case KInput => IsOneOf(o.key, "pointing", "keyboard") && o.value == ""
    case KGpu =>
      && IsOneOf(o.key, "width", "height")
      && ParseInt(o.value, 0x7FFF_FFFF_FFFF_FFFF).Some? && ParseInt(o.value, 0x7FFF_FFFF_FFFF_FFFF).value >= 1
    case KNbd =>
      IsOneOf(o.key, "uri", "deviceId") || o == Opt("readonly", "")
      || (o.key == "timeout" && ParseInt(o.value, 0x7FFF_FFFF).Some?)
      || (o.key == "sync" && IsOneOf(o.value, "full", "none"))
    case KRng => false
    case KBalloon => false
  }

  predicate FitsDisk(o: Opt) {
    || o.key == "path" || o == Opt("readonly", "")
    || (o.key == "type" && (o.value == "image" || o.value == "dev" || o.value == ""))
  }

  predicate AllFit(kind: DeviceKind, opts: seq<Opt>) { forall o :: o in opts ==> Fits(kind, o) }

  // ---------- The whole list ----------

  function Dimension(key: string, opts: seq<Opt>, default: Int64): Int64 {
    match ValueOf(key, opts)
    case None => default
    case Some(text) =>
      match ParseInt(text, 0x7FFF_FFFF_FFFF_FFFF)
      case None => default
      case Some(n) => if 1 <= n <= 0x7FFF_FFFF_FFFF_FFFF then n else default
  }

  function Port(opts: seq<Opt>): Uint32 {
    match ValueOf("port", opts)
    case None => 0
    case Some(text) =>
      match ParseUint(text, 0xFFFF_FFFF)
      case None => 0
      case Some(port) => if port <= 0xFFFF_FFFF then port else 0
  }

  function Timeout(opts: seq<Opt>): Int64 {
    match ValueOf("timeout", opts)
    case None => 15_000_000_000
    case Some(text) =>
      match ParseInt(text, 0x7FFF_FFFF)
      case None => 15_000_000_000
      case Some(ms) => if -0x8000_0000 <= ms <= 0x7FFF_FFFF then ms * 1_000_000 else 15_000_000_000
  }

  predicate IsDirection(o: Opt) { o.key == "listen" || o.key == "connect" }

  /** Listening is the default; otherwise the last of the two options decides. */
  predicate Listens(opts: seq<Opt>) {
    match NetAcceptance.Last(IsDirection, opts)
    case None => true
    case Some(o) => o.key == "listen"
  }

  function DiskOf(devName: string, opts: seq<Opt>): DiskView {
    DiskView(devName, Given("readonly", opts), TextOf("path", opts), TextOf("type", opts))
  }

  function RosettaOf(opts: seq<Opt>): RosettaView {
    RosettaView(TextOf("mountTag", opts), Given("install", opts), Given("ignore-if-missing", opts))
  }

  function BlkOf(opts: seq<Opt>): BlkView { BlkView(DiskOf("virtio-blk", opts), TextOf("deviceId", opts)) }

  function FsOf(opts: seq<Opt>): FsView { FsView(TextOf("mountTag", opts), TextOf("sharedDir", opts)) }

  function SerialOf(opts: seq<Opt>): SerialView {
    SerialView(TextOf("logFilePath", opts), Given("stdio", opts), Given("pty", opts), "")
  }

  function VsockOf(opts: seq<Opt>): VsockView { VsockView(Port(opts), TextOf("socketURL", opts), Listens(opts)) }

  function InputOf(opts: seq<Opt>): InputView { InputView(if opts == [] then "" else opts[|opts|-1].key) }

  function GpuOf(opts: seq<Opt>, width: Int64, height: Int64): GpuView {
    GpuView(false, Dimension("width", opts, width), Dimension("height", opts, height))
  }

  function NbdOf(opts: seq<Opt>): NbdView {
    NbdView(NbdStorageView("nbd", Given("readonly", opts), TextOf("uri", opts)),
            TextOf("deviceId", opts), Timeout(opts),
            ValueOf("sync", opts).GetOr("full"))
  }

  function DeviceOf(kind: DeviceKind, opts: seq<Opt>): Device {
    match kind
    case KRosetta => Rosetta(RosettaOf(opts))
    case KNvme => Nvme(DiskOf("nvme", opts))
    case KUsb => Usb(DiskOf("usb-mass-storage", opts))
    case KBlk => Blk(BlkOf(opts))
    case KFs => Fs(FsOf(opts))
    case KNet =>
      Net(NetAcceptance.Described(opts, Given("path", opts) || Given("unixSocketPath", opts)))
    case KSerial => Serial(SerialOf(opts))
    case KVsock => Vsock(VsockOf(opts))
    case KInput => Input(InputOf(opts))
    case KGpu => Gpu(GpuOf(opts, 800, 600))
    case KNbd => Nbd(NbdOf(opts))
    case KRng => Rng
    case KBalloon => Balloon
  }

  /** What the list as a whole must satisfy besides. */
  ghost predicate Complete(kind: DeviceKind, opts: seq<Opt>, raw: DiskOracle) {
    match kind
    case KBlk => raw(TextOf("path", opts))
    case KNet => NetAcceptance.Acceptable(opts)
    case KSerial =>
      NetAcceptance.ExactlyOne(TextOf("logFilePath", opts) != "", Given("stdio", opts), Given("pty", opts))
    case KInput => opts != []
    case KGpu => Given("width", opts) <==> Given("height", opts)
    case _ => true
  }

  // ---------- One pass over the list ----------

  lemma RosettaReads(opts: seq<Opt>)
    ensures Fold(RosettaStep, FRESH_ROSETTA, opts) == if AllFit(KRosetta, opts) then Some(RosettaOf(opts)) else None
  {
    forall a, o
      ensures RosettaStep(RosettaOf(a), o) == if Fits(KRosetta, o) then Some(RosettaOf(a + [o])) else None
    {
      ValueSnoc("mountTag", a, o);
      ValueSnoc("install", a, o);
      ValueSnoc("ignore-if-missing", a, o);
    }
    FoldDescribes(RosettaStep, o => Fits(KRosetta, o), RosettaOf, opts);
  }

  lemma DiskStepReads(devName: string, a: seq<Opt>, o: Opt)
    ensures DiskStep(DiskOf(devName, a), o) == if FitsDisk(o) then Some(DiskOf(devName, a + [o])) else None
  {
    ValueSnoc("path", a, o);
    ValueSnoc("type", a, o);
    ValueSnoc("readonly", a, o);
    match o.key
    case "path" =>
    case "type" =>
    case "readonly" =>
    case _ =>
  }

  lemma DiskReads(devName: string, opts: seq<Opt>)
    ensures Fold(DiskStep, FreshDisk(devName), opts)
         == if forall o :: o in opts ==> FitsDisk(o) then Some(DiskOf(devName, opts)) else None
  {
    forall a, o
      ensures DiskStep(DiskOf(devName, a), o) == if FitsDisk(o) then Some(DiskOf(devName, a + [o])) else None {
      DiskStepReads(devName, a, o);
    }
    FoldDescribes(DiskStep, FitsDisk, a => DiskOf(devName, a), opts);
  }

  lemma BlkReads(opts: seq<Opt>)
    ensures Fold(BlkStep, BlkView(FreshDisk("virtio-blk"), ""), opts)
         == if AllFit(KBlk, opts) then Some(BlkOf(opts)) else None
  {
    forall a, o ensures BlkStep(BlkOf(a), o) == if Fits(KBlk, o) then Some(BlkOf(a + [o])) else None {
      DiskStepReads("virtio-blk", a, o);
      ValueSnoc("deviceId", a, o);
      if o.key == "deviceId" {
        ValueSnoc("path", a, o);
        ValueSnoc("type", a, o);
        ValueSnoc("readonly", a, o);
      }
    }
    FoldDescribes(BlkStep, o => Fits(KBlk, o), BlkOf, opts);
  }

  lemma FsReads(opts: seq<Opt>)
    ensures Fold(FsStep, FRESH_FS, opts) == if AllFit(KFs, opts) then Some(FsOf(opts)) else None
  {
    forall a, o ensures FsStep(FsOf(a), o) == if Fits(KFs, o) then Some(FsOf(a + [o])) else None {
      ValueSnoc("sharedDir", a, o);
      ValueSnoc("mountTag", a, o);
    }
    FoldDescribes(FsStep, o => Fits(KFs, o), FsOf, opts);
  }

  lemma SerialReads(opts: seq<Opt>)
    ensures Fold(SerialStep, FRESH_SERIAL, opts) == if AllFit(KSerial, opts) then Some(SerialOf(opts)) else None
  {
    forall a, o ensures SerialStep(SerialOf(a), o) == if Fits(KSerial, o) then Some(SerialOf(a + [o])) else None {
      ValueSnoc("logFilePath", a, o);
      ValueSnoc("stdio", a, o);
      ValueSnoc("pty", a, o);
      match o.key
      case "logFilePath" =>
      case "stdio" =>
      case "pty" =>
      case _ =>
    }
    FoldDescribes(SerialStep, o => Fits(KSerial, o), SerialOf, opts);
  }

  lemma VsockReads(opts: seq<Opt>)
    ensures Fold(VsockStep, FRESH_VSOCK.(listen := true), opts)
         == if AllFit(KVsock, opts) then Some(VsockOf(opts)) else None
  {
    forall a, o ensures VsockStep(VsockOf(a), o) == if Fits(KVsock, o) then Some(VsockOf(a + [o])) else None {
      ValueSnoc("socketURL", a, o);
      ValueSnoc("port", a, o);
      NetAcceptance.LastSnoc(IsDirection, a, o);
      match o.key
      case "socketURL" =>
      case "port" =>
      case "listen" =>
      case "connect" =>
      case _ =>
    }
    FoldDescribes(VsockStep, o => Fits(KVsock, o), VsockOf, opts);
  }

  lemma InputReads(opts: seq<Opt>)
    ensures Fold(InputStep, FRESH_INPUT, opts) == if AllFit(KInput, opts) then Some(InputOf(opts)) else None
  {
    FoldDescribes(InputStep, o => Fits(KInput, o), InputOf, opts);
  }

  lemma GpuReads(opts: seq<Opt>)
    ensures Fold(GpuStep, FRESH_GPU, opts) == if AllFit(KGpu, opts) then Some(GpuOf(opts, 0, 0)) else None
  {
    forall a, o ensures GpuStep(GpuOf(a, 0, 0), o) == if Fits(KGpu, o) then Some(GpuOf(a + [o], 0, 0)) else None {
      ValueSnoc("width", a, o);
      ValueSnoc("height", a, o);
      match o.key
      case "width" =>
      case "height" =>
      case _ =>
    }
    FoldDescribes(GpuStep, o => Fits(KGpu, o), a => GpuOf(a, 0, 0), opts);
  }

  lemma GpuAccepts(opts: seq<Opt>)
    ensures GpuFromOptions(FRESH_GPU, opts)
         == if AllFit(KGpu, opts) && (Given("width", opts) <==> Given("height", opts))
            then Some(GpuOf(opts, 800, 600)) else None
  {
    GpuReads(opts);
    ValueIn("width", opts);
    ValueIn("height", opts);
  }

  lemma NbdReads(opts: seq<Opt>)
    ensures Fold(NbdStep, FRESH_NBD, opts) == if AllFit(KNbd, opts) then Some(NbdOf(opts)) else None
  {
    forall a, o ensures NbdStep(NbdOf(a), o) == if Fits(KNbd, o) then Some(NbdOf(a + [o])) else None {
      NbdStepReads(a, o);
    }
    FoldDescribes(NbdStep, o => Fits(KNbd, o), NbdOf, opts);
  }

  lemma NbdStepReads(a: seq<Opt>, o: Opt)
    ensures NbdStep(NbdOf(a), o) == if Fits(KNbd, o) then Some(NbdOf(a + [o])) else None
  {
    ValueSnoc("uri", a, o);
    ValueSnoc("readonly", a, o);
    ValueSnoc("deviceId", a, o);
    ValueSnoc("timeout", a, o);
    ValueSnoc("sync", a, o);
    match o.key
    case "uri" =>
    case "readonly" =>
    case "deviceId" =>
    case "timeout" =>
    case "sync" =>
    case _ =>
  }

  /** For every kind: a fresh device accepts a list exactly when each option fits and the list is complete, and then
      becomes the device the list describes. */
  lemma DeviceAccepts(kind: DeviceKind, opts: seq<Opt>, raw: DiskOracle)
    ensures FromOptions(kind, opts, raw)
         == if AllFit(kind, opts) && Complete(kind, opts, raw) then Some(DeviceOf(kind, opts)) else None
  {
    match kind
    case KRosetta => RosettaReads(opts);
    case KNvme => DiskReads("nvme", opts);
    case KUsb => DiskReads("usb-mass-storage", opts);
    case KBlk => BlkReads(opts);
    case KFs => FsReads(opts);
    case KNet =>
      NetAcceptance.NetAccepts(opts);
      GivenMeaning("path", opts);
      GivenMeaning("unixSocketPath", opts);
    case KSerial => SerialReads(opts);
    case KVsock => VsockReads(opts);
    case KInput =>
      InputReads(opts);
      assert opts != [] ==> opts[|opts|-1] in opts;
    case KGpu => GpuAccepts(opts);
    case KNbd => NbdReads(opts);
    case KRng => assert opts != [] ==> opts[0] in opts;
    case KBalloon => assert opts != [] ==> opts[0] in opts;
  }
}
