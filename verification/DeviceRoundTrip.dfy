/** Which devices come back unchanged from their own command line, and which accepted texts are stable. */
module DeviceRoundTrip {
  import opened Text
  import opened Options
  import opened Devices

  predicate Plain(s: string) { ',' !in s }

  predicate DiskReadable(d: DiskView, devName: string) {
    d.devName == devName && Plain(d.imagePath)
    && (d.backend == "image" || d.backend == "dev" || d.backend == "")
  }

  predicate NetReadable(d: NetView) {
    && (d.mac == [] || IsMacLength(|d.mac|))
    && (d.socket.Some? ==> d.socket.value.Descriptor? && d.socket.value.fd <= 0x7FFF_FFFF)
    && Plain(d.unixSocketPath)
  }

  predicate NbdReadable(d: NbdView) {
    && d.storage.devName == "nbd" && Plain(d.storage.uri) && Plain(d.deviceIdentifier)
    && d.timeout % 1_000_000 == 0
    && -0x8000_0000 <= d.timeout / 1_000_000 <= 0x7FFF_FFFF
    && (d.syncMode == "full" || d.syncMode == "none")
  }

  /** Every value an option list can leave in a device. */
  predicate Readable(d: Device, raw: DiskOracle) {
    match d
    case Rosetta(v) => Plain(v.mountTag)
    case Nvme(v) => DiskReadable(v, "nvme")
    case Blk(v) => DiskReadable(v.disk, "virtio-blk") && Plain(v.deviceIdentifier) && raw(v.disk.imagePath)
    case Fs(v) => Plain(v.sharedDir) && Plain(v.mountTag)
    case Net(v) => NetReadable(v)
    case Rng => true
    case Serial(v) => Plain(v.logFile) && v.ptyName == ""
    case Vsock(v) => Plain(v.socketURL)
    case Usb(v) => DiskReadable(v, "usb-mass-storage")
    case Input(v) => true
    case Gpu(v) => !v.usesGUI
    case Balloon => true
    case Nbd(v) => NbdReadable(v)
  }

  /** The two kinds of settings a printer leaves out although the reader would not default to them. */
  predicate Survives(d: Device) {
    match d
    case Nbd(v) => v.timeout >= 1_000_000
    case Net(v) => v.vfkitMagic ==> v.unixSocketPath != ""
    case _ => true
  }

  /** What is left of a readable device after one print and one read. */
  function Reread(d: Device): Device {
    match d
    case Nbd(v) => if v.timeout < 1_000_000 then Nbd(v.(timeout := 15_000_000_000)) else d
    case Net(v) => Net(v.(vfkitMagic := v.vfkitMagic && v.unixSocketPath != ""))
    case _ => d
  }

  // ---------- Reading back what a printer appends ----------

  lemma ReadSetting<S>(step: (S, Opt) -> Option<S>, s: S, tail: string, key: string, value: string)
    requires Plain(key) && '=' !in key && Plain(value)
    ensures Fold(step, s, TextOptions(tail + Setting(key, value)))
         == Then(Fold(step, s, TextOptions(tail)), step, Opt(key, value))
  {
    AppendedSetting(tail, key, value);
    FoldSnoc(step, s, TextOptions(tail), Opt(key, value));
  }

  lemma ReadFlag<S>(step: (S, Opt) -> Option<S>, s: S, tail: string, key: string)
    requires Plain(key) && '=' !in key && key != ""
    ensures Fold(step, s, TextOptions(tail + Flag(key)))
         == Then(Fold(step, s, TextOptions(tail)), step, Opt(key, ""))
  {
    AppendedFlag(tail, key);
    FoldSnoc(step, s, TextOptions(tail), Opt(key, ""));
  }

  lemma ReadNothing<S>(step: (S, Opt) -> Option<S>, s: S)
    ensures Fold(step, s, TextOptions("")) == Some(s)
  {
    NoOptions();
  }

  lemma ReadFirst<S>(step: (S, Opt) -> Option<S>, s: S, key: string, value: string)
    requires Plain(key) && '=' !in key && Plain(value)
    ensures Fold(step, s, TextOptions(Setting(key, value))) == step(s, Opt(key, value))
  {
    ReadNothing(step, s);
    ReadSetting(step, s, "", key, value);
    assert "" + Setting(key, value) == Setting(key, value);
  }

  lemma NoOptions()
    ensures TextOptions("") == []
  {
    LoneText("");
  }

  lemma LeadingComma(rest: string)
    ensures TextOptions("," + rest) == OptionsOf(Split(rest, ','))
  {
    assert "," + rest == "" + [','] + rest;
    SplitConcat("", rest, ',');
    OptionsOfConcat([""], Split(rest, ','));
    NoOptions();
  }

  lemma SplitAtComma(name: string, rest: string)
    requires Plain(name)
    ensures Split(name + ("," + rest), ',') == [name] + Split(rest, ',')
  {
    SplitPlain(name, ',');
    SplitConcat(name, rest, ',');
    assert name + ("," + rest) == name + [','] + rest;
  }

  /** The device name ends at the first comma, and everything after it is options. */
  lemma SplitName(name: string, tail: string)
    requires Plain(name)
    requires tail == "" || tail[0] == ','
    ensures Split(name + tail, ',')[0] == name && OptionsOf(Split(name + tail, ',')[1..]) == TextOptions(tail)
  {
    if tail == "" {
      SplitPlain(name, ',');
      NoOptions();
      assert name + tail == name;
    } else {
      assert tail == "," + tail[1..];
      LeadingComma(tail[1..]);
      SplitAtComma(name, tail[1..]);
    }
  }

  /** Each kind has one name, and no other text names a kind. */
  lemma KindNames(kind: DeviceKind)
    ensures forall name :: KindOf(name) == Some(kind) <==> name == NameOf(kind)
    ensures Plain(NameOf(kind))
  {
  }

  /** The name a device of each kind is printed under. */
  function NameOf(kind: DeviceKind): string {
    match kind
    case KRosetta => "rosetta"
    case KNvme => "nvme"
    case KBlk => "virtio-blk"
    case KFs => "virtio-fs"
    case KNet => "virtio-net"
    case KRng => "virtio-rng"
    case KSerial => "virtio-serial"
    case KVsock => "virtio-vsock"
    case KUsb => "usb-mass-storage"
    case KInput => "virtio-input"
    case KGpu => "virtio-gpu"
    case KBalloon => "virtio-balloon"
    case KNbd => "nbd"
  }

  lemma ReadDevice(kind: DeviceKind, tail: string, raw: DiskOracle)
    requires tail == "" || tail[0] == ','
    ensures DeviceFromCmdLine(NameOf(kind) + tail, raw) == FromOptions(kind, TextOptions(tail), raw)
  {
    KindNames(kind);
    SplitName(NameOf(kind), tail);
  }

  lemma DiskPathRead(d: DiskView, devName: string)
    requires DiskReadable(d, devName)
    ensures Fold(DiskStep, FreshDisk(devName),
                 TextOptions(Setting("path", d.imagePath) + If(d.backend != "", Setting("type", d.backend))))
         == Some(DiskView(devName, false, d.imagePath, d.backend))
  {
    var s, t := FreshDisk(devName), Setting("path", d.imagePath);
    ReadFirst(DiskStep, s, "path", d.imagePath);
    assert t + "" == t;
    ReadSetting(DiskStep, s, t, "type", d.backend);
  }

  lemma DiskTailRead(d: DiskView, devName: string)
    requires DiskReadable(d, devName)
    ensures Fold(DiskStep, FreshDisk(devName), TextOptions(DiskTail(d))) == Some(d)
  {
    var u := Setting("path", d.imagePath) + If(d.backend != "", Setting("type", d.backend));
    DiskPathRead(d, devName);
    ReadFlag(DiskStep, FreshDisk(devName), u, "readonly");
    assert u + "" == u;
  }

  lemma {:induction false} BlkReadsDisk(d: DiskView, id: string, opts: seq<Opt>)
    requires forall o :: o in opts ==> !IsDeviceId(o)
    ensures Fold(BlkStep, BlkView(d, id), opts)
         == (match Fold(DiskStep, d, opts) case None => None case Some(e) => Some(BlkView(e, id)))
    decreases |opts|
  {
    if opts != [] {
      assert !IsDeviceId(opts[0]);
      match DiskStep(d, opts[0])
      case None =>
      case Some(e) => BlkReadsDisk(e, id, opts[1..]);
    }
  }

  lemma DiskTailKeys(d: DiskView, devName: string)
    requires DiskReadable(d, devName)
    ensures forall o :: o in TextOptions(DiskTail(d)) ==> o.key == "path" || o.key == "type" || o.key == "readonly"
  {
    var t := Setting("path", d.imagePath);
    var u := t + If(d.backend != "", Setting("type", d.backend));
    assert TextOptions(t) == [Opt("path", d.imagePath)] by {
      NoOptions();
      assert "" + t == t;
      AppendedSetting("", "path", d.imagePath);
    }
    assert forall o :: o in TextOptions(u) ==> o.key == "path" || o.key == "type" by {
      assert t + "" == t;
      AppendedSetting(t, "type", d.backend);
    }
    assert u + "" == u;
    AppendedFlag(u, "readonly");
  }

  function BlkTail(d: BlkView): string {
    DiskTail(d.disk) + If(d.deviceIdentifier != "", Setting("deviceId", d.deviceIdentifier))
  }

  lemma BlkTailRead(d: BlkView)
    requires DiskReadable(d.disk, "virtio-blk") && Plain(d.deviceIdentifier)
    ensures Fold(BlkStep, BlkView(FreshDisk("virtio-blk"), ""), TextOptions(BlkTail(d))) == Some(d)
  {
    var start, tail := FreshDisk("virtio-blk"), DiskTail(d.disk);
    DiskTailRead(d.disk, "virtio-blk");
    DiskTailKeys(d.disk, "virtio-blk");
    BlkReadsDisk(start, "", TextOptions(tail));
    ReadSetting(BlkStep, BlkView(start, ""), tail, "deviceId", d.deviceIdentifier);
    assert tail + "" == tail;
  }

  lemma RosettaTailRead(d: RosettaView)
    requires Plain(d.mountTag)
    ensures Fold(RosettaStep, FRESH_ROSETTA, TextOptions(RosettaTail(d))) == Some(d)
  {
    var s, t := FRESH_ROSETTA, Setting("mountTag", d.mountTag);
    ReadFirst(RosettaStep, s, "mountTag", d.mountTag);
    ReadFlag(RosettaStep, s, t, "install");
    var u := t + If(d.installRosetta, Flag("install"));
    ReadFlag(RosettaStep, s, u, "ignore-if-missing");
    assert t + "" == t && u + "" == u;
  }

  lemma FsTailRead(d: FsView)
    requires Plain(d.sharedDir) && Plain(d.mountTag)
    ensures Fold(FsStep, FRESH_FS, TextOptions(FsTail(d))) == Some(d)
  {
    var s, t := FRESH_FS, Setting("sharedDir", d.sharedDir);
    ReadFirst(FsStep, s, "sharedDir", d.sharedDir);
    ReadSetting(FsStep, s, t, "mountTag", d.mountTag);
    assert t + "" == t;
  }

  lemma SerialTailRead(d: SerialView)
    requires SerialValid(d) && Plain(d.logFile) && d.ptyName == ""
    ensures Fold(SerialStep, FRESH_SERIAL, TextOptions(SerialTail(d))) == Some(d)
  {
    var s, t := FRESH_SERIAL, SerialTail(d);
    ReadNothing(SerialStep, s);
    assert "" + t == t;
    if d.usesStdio {
      ReadFlag(SerialStep, s, "", "stdio");
    } else if d.usesPty {
      ReadFlag(SerialStep, s, "", "pty");
    } else {
      ReadSetting(SerialStep, s, "", "logFilePath", d.logFile);
    }
  }

  lemma PrintedNumberIsPlain(n: nat)
    ensures Plain(Dec(n))
  {
    DecRoundTrip(n);
  }

  lemma VsockPortRead(s: VsockView, port: Uint32)
    ensures VsockStep(s, Opt("port", Dec(port))) == Some(s.(port := port))
    ensures Plain(Dec(port))
  {
    PrintedNumberIsPlain(port);
    ParsePrintedNumber(port, MAX_UINT32);
  }

  lemma VsockAddressRead(d: VsockView)
    requires Plain(d.socketURL)
    ensures Fold(VsockStep, FRESH_VSOCK.(listen := true),
                 TextOptions(Setting("port", Dec(d.port)) + Setting("socketURL", d.socketURL)))
         == Some(VsockView(d.port, d.socketURL, true))
  {
    var s, t := FRESH_VSOCK.(listen := true), Setting("port", Dec(d.port));
    VsockPortRead(s, d.port);
    ReadFirst(VsockStep, s, "port", Dec(d.port));
    ReadSetting(VsockStep, s, t, "socketURL", d.socketURL);
  }

  lemma VsockTailRead(d: VsockView)
    requires Plain(d.socketURL)
    ensures Fold(VsockStep, FRESH_VSOCK.(listen := true), TextOptions(VsockTail(d))) == Some(d)
  {
    VsockAddressRead(d);
    ReadFlag(VsockStep, FRESH_VSOCK.(listen := true), Setting("port", Dec(d.port)) + Setting("socketURL", d.socketURL),
             if d.listen then "listen" else "connect");
  }

  lemma InputTypePlain(d: InputView)
    requires InputValid(d)
    ensures Plain(d.inputType) && '=' !in d.inputType && d.inputType != ""
    ensures InputStep(FRESH_INPUT, Opt(d.inputType, "")) == Some(d)
  {
  }

  lemma InputTailRead(d: InputView)
    requires InputValid(d)
    ensures Fold(InputStep, FRESH_INPUT, TextOptions(Flag(d.inputType))) == Some(d)
  {
    InputTypePlain(d);
    ReadNothing(InputStep, FRESH_INPUT);
    ReadFlag(InputStep, FRESH_INPUT, "", d.inputType);
    assert "" + Flag(d.inputType) == Flag(d.inputType);
  }

  lemma GpuTailRead(d: GpuView)
    requires GpuValid(d) && !d.usesGUI
    ensures Fold(GpuStep, FRESH_GPU, TextOptions(GpuTail(d))) == Some(d)
  {
    var s, t := FRESH_GPU, Setting("width", Dec(d.width));
    PrintedNumberIsPlain(d.width);
    PrintedNumberIsPlain(d.height);
    ParsePrintedNumber(d.width, MAX_INT64);
    ParsePrintedNumber(d.height, MAX_INT64);
    ReadFirst(GpuStep, s, "width", Dec(d.width));
    ReadSetting(GpuStep, s, t, "height", Dec(d.height));
  }

  lemma GpuRead(d: GpuView)
    requires GpuValid(d) && !d.usesGUI
    ensures GpuFromOptions(FRESH_GPU, TextOptions(GpuTail(d))) == Some(d)
  {
    GpuTailRead(d);
    assert GpuDefaults(d) == d;
  }

  // ---------- virtio-net ----------

  function NetTail(d: NetView): string
    requires NetPrintable(d)
  {
    NetAttachment(d) + If(d.mac != [], Setting("mac", MacString(d.mac)))
  }

  lemma NetFdRead(st: NetScan, fd: nat)
    requires fd <= MAX_INT32
    ensures NetStep(st, Opt("fd", Dec(fd))) == Some(st.(dev := st.dev.(socket := Some(Descriptor(fd)))))
    ensures Plain(Dec(fd))
  {
    PrintedNumberIsPlain(fd);
    ParsePrintedNumber(fd, MAX_INT64);
  }

  lemma NetMacRead(st: NetScan, mac: seq<Byte>)
    requires IsMacLength(|mac|)
    ensures NetStep(st, Opt("mac", MacString(mac))) == Some(st.(dev := st.dev.(mac := mac)))
    ensures Plain(MacString(mac))
  {
    MacStringShape(mac);
    MacRoundTrip(mac);
  }

  /** The options the attachment part of a virtio-net text stands for. */
  function NetAttachmentOptions(d: NetView): seq<Opt>
    requires NetPrintable(d)
  {
    if d.usesNat then [Opt("nat", "")]
    else if d.unixSocketPath != "" then
      if d.vfkitMagic then [Opt("unixSocketPath", d.unixSocketPath)]
      else [Opt("type", "unixgram")] + [Opt("path", d.unixSocketPath)] + [Opt("vfkitMagic", "off")]
    else [Opt("fd", Dec(d.socket.value.fd))]
  }

  lemma TwoSettings(k0: string, v0: string, k1: string, v1: string)
    requires Plain(k0) && Plain(v0) && '=' !in k0
    requires Plain(k1) && Plain(v1) && '=' !in k1
    ensures TextOptions(Setting(k0, v0) + Setting(k1, v1)) == [Opt(k0, v0)] + [Opt(k1, v1)]
  {
    var t := Setting(k0, v0);
    NoOptions();
    assert "" + t == t;
    AppendedSetting("", k0, v0);
    AppendedSetting(t, k1, v1);
  }

  lemma UnixgramText(path: string)
    requires Plain(path)
    ensures TextOptions(Setting("type", "unixgram") + Setting("path", path) + Setting("vfkitMagic", "off"))
         == [Opt("type", "unixgram")] + [Opt("path", path)] + [Opt("vfkitMagic", "off")]
  {
    TwoSettings("type", "unixgram", "path", path);
    AppendedSetting(Setting("type", "unixgram") + Setting("path", path), "vfkitMagic", "off");
  }

  lemma NetAttachmentText(d: NetView)
    requires NetPrintable(d) && Plain(d.unixSocketPath)
    ensures TextOptions(NetAttachment(d)) == NetAttachmentOptions(d)
  {
    NoOptions();
    var t := NetAttachment(d);
    assert "" + t == t;
    if d.usesNat {
      AppendedFlag("", "nat");
    } else if d.unixSocketPath != "" {
      if d.vfkitMagic {
        AppendedSetting("", "unixSocketPath", d.unixSocketPath);
      } else {
        UnixgramText(d.unixSocketPath);
      }
    } else {
      PrintedNumberIsPlain(d.socket.value.fd);
      AppendedSetting("", "fd", Dec(d.socket.value.fd));
    }
  }

  function NetOptions(d: NetView): seq<Opt>
    requires NetPrintable(d)
  {
    NetAttachmentOptions(d) + if d.mac != [] then [Opt("mac", MacString(d.mac))] else []
  }

  lemma NetTailText(d: NetView)
    requires NetValid(d) && NetReadable(d)
    ensures TextOptions(NetTail(d)) == NetOptions(d)
  {
    NetAttachmentText(d);
    var t := NetAttachment(d);
    assert t + "" == t;
    if d.mac != [] {
      MacStringShape(d.mac);
      AppendedSetting(t, "mac", MacString(d.mac));
    }
  }

  /** The scan after the attachment options, from any scan whose device has no attachment yet. */
  lemma NetAttachmentRead(d: NetView, st: NetScan)
    requires NetValid(d) && NetReadable(d)
    ensures Fold(NetStep, st, NetAttachmentOptions(d))
         == Some(if d.usesNat then st.(dev := st.dev.(usesNat := true))
                 else if d.socket.Some? then st.(dev := st.dev.(socket := d.socket))
                 else if d.vfkitMagic then st.(dev := st.dev.(unixSocketPath := d.unixSocketPath))
                 else NetScan(st.dev.(unixSocketPath := d.unixSocketPath, vfkitMagic := false), true, true))
  {
    if d.usesNat {
      FoldOne(NetStep, st, Opt("nat", ""));
    } else if d.socket.Some? {
      NetFdRead(st, d.socket.value.fd);
      FoldOne(NetStep, st, Opt("fd", Dec(d.socket.value.fd)));
    } else if d.vfkitMagic {
      FoldOne(NetStep, st, Opt("unixSocketPath", d.unixSocketPath));
    } else {
      var a, b, c := Opt("type", "unixgram"), Opt("path", d.unixSocketPath), Opt("vfkitMagic", "off");
      FoldOne(NetStep, st, a);
      FoldSnoc(NetStep, st, [a], b);
      FoldSnoc(NetStep, st, [a] + [b], c);
    }
  }

  lemma NetTailPrescan(d: NetView)
    requires NetValid(d) && NetReadable(d)
    ensures NetPrescan(FRESH_NET, NetOptions(d)) == FRESH_NET.(vfkitMagic := d.unixSocketPath != "")
  {
    var opts := NetOptions(d);
    if !d.usesNat && d.unixSocketPath != "" {
      var i := if d.vfkitMagic then 0 else 1;
      assert opts[i] in opts && IsPathOption(opts[i]);
    } else {
      assert forall o :: o in opts ==> o.key == "nat" || o.key == "fd" || o.key == "mac";
    }
  }

  lemma NetTailRead(d: NetView)
    requires NetValid(d) && NetReadable(d)
    ensures NetFromOptions(FRESH_NET, TextOptions(NetTail(d)))
         == Some(d.(vfkitMagic := d.vfkitMagic && d.unixSocketPath != ""))
  {
    var st := NetScan(FRESH_NET.(vfkitMagic := d.unixSocketPath != ""), false, false);
    NetTailText(d);
    NetTailPrescan(d);
    NetAttachmentRead(d, st);
    var attachment := NetAttachmentOptions(d);
    assert attachment + [] == attachment;
    if d.mac != [] {
      NetMacRead(Fold(NetStep, st, attachment).value, d.mac);
      FoldSnoc(NetStep, st, attachment, Opt("mac", MacString(d.mac)));
    }
  }

  // ---------- nbd ----------

  function NbdTail(d: NbdView): string {
    Setting("uri", d.storage.uri)
    + If(d.storage.readOnly, Flag("readonly"))
    + If(d.deviceIdentifier != "", Setting("deviceId", d.deviceIdentifier))
    + (if Millis(d.timeout) > 0 then Setting("timeout", Dec(Millis(d.timeout))) else "")
    + If(d.syncMode == "none" || d.syncMode == "full", Setting("sync", d.syncMode))
  }

  lemma NbdTimeoutRead(d: NbdView, timeout: Int64)
    requires timeout % NANOS_PER_MILLI == 0 && 0 < Millis(timeout) <= MAX_INT32
    ensures NbdStep(d, Opt("timeout", Dec(Millis(timeout)))) == Some(d.(timeout := timeout))
    ensures Plain(Dec(Millis(timeout)))
  {
    PrintedNumberIsPlain(Millis(timeout));
    ParsePrintedNumber(Millis(timeout), MAX_INT32);
  }

  lemma NbdStorageRead(d: NbdView)
    requires NbdReadable(d)
    ensures Fold(NbdStep, FRESH_NBD,
                 TextOptions(Setting("uri", d.storage.uri) + If(d.storage.readOnly, Flag("readonly"))))
         == Some(FRESH_NBD.(storage := d.storage))
  {
    var t := Setting("uri", d.storage.uri);
    ReadFirst(NbdStep, FRESH_NBD, "uri", d.storage.uri);
    assert t + "" == t;
    ReadFlag(NbdStep, FRESH_NBD, t, "readonly");
  }

  lemma NbdIdRead(d: NbdView)
    requires NbdReadable(d)
    ensures Fold(NbdStep, FRESH_NBD,
                 TextOptions(Setting("uri", d.storage.uri) + If(d.storage.readOnly, Flag("readonly"))
                             + If(d.deviceIdentifier != "", Setting("deviceId", d.deviceIdentifier))))
         == Some(FRESH_NBD.(storage := d.storage, deviceIdentifier := d.deviceIdentifier))
  {
    NbdStorageRead(d);
    var t := Setting("uri", d.storage.uri) + If(d.storage.readOnly, Flag("readonly"));
    assert t + "" == t;
    ReadSetting(NbdStep, FRESH_NBD, t, "deviceId", d.deviceIdentifier);
  }

  lemma NbdTimeoutAppended(timeout: Int64, tail: string, at: NbdView)
    requires timeout % NANOS_PER_MILLI == 0 && 0 < Millis(timeout) <= MAX_INT32
    requires Fold(NbdStep, FRESH_NBD, TextOptions(tail)) == Some(at)
    ensures Fold(NbdStep, FRESH_NBD, TextOptions(tail + Setting("timeout", Dec(Millis(timeout)))))
         == Some(at.(timeout := timeout))
  {
    NbdTimeoutRead(at, timeout);
    ReadSetting(NbdStep, FRESH_NBD, tail, "timeout", Dec(Millis(timeout)));
  }

  lemma NbdTimeoutTailRead(d: NbdView, tail: string, at: NbdView)
    requires NbdReadable(d)
    requires Fold(NbdStep, FRESH_NBD, TextOptions(tail)) == Some(at)
    ensures Fold(NbdStep, FRESH_NBD,
                 TextOptions(tail + (if Millis(d.timeout) > 0 then Setting("timeout", Dec(Millis(d.timeout))) else "")))
         == Some(if d.timeout < NANOS_PER_MILLI then at else at.(timeout := d.timeout))
  {
    if Millis(d.timeout) > 0 {
      NbdTimeoutAppended(d.timeout, tail, at);
    } else {
      assert tail + "" == tail;
    }
  }

  lemma NbdTailRead(d: NbdView)
    requires NbdReadable(d)
    ensures Fold(NbdStep, FRESH_NBD, TextOptions(NbdTail(d)))
         == Some(if d.timeout < NANOS_PER_MILLI then d.(timeout := FRESH_NBD.timeout) else d)
  {
    var u := Setting("uri", d.storage.uri) + If(d.storage.readOnly, Flag("readonly"))
             + If(d.deviceIdentifier != "", Setting("deviceId", d.deviceIdentifier));
    var v := u + (if Millis(d.timeout) > 0 then Setting("timeout", Dec(Millis(d.timeout))) else "");
    NbdIdRead(d);
    NbdTimeoutTailRead(d, u, FRESH_NBD.(storage := d.storage, deviceIdentifier := d.deviceIdentifier));
    ReadSetting(NbdStep, FRESH_NBD, v, "sync", d.syncMode);
  }

  // ---------- One print and one read of any readable device ----------

  function Tail(d: Device): string
    requires DeviceText(d).Some?
  {
    match d
    case Rosetta(v) => RosettaTail(v)
    case Nvme(v) => DiskTail(v)
    case Blk(v) => BlkTail(v)
    case Fs(v) => FsTail(v)
    case Net(v) => NetTail(v)
    case Rng => ""
    case Serial(v) => SerialTail(v)
    case Vsock(v) => VsockTail(v)
    case Usb(v) => DiskTail(v)
    case Input(v) => Flag(v.inputType)
    case Gpu(v) => GpuTail(v)
    case Balloon => ""
    case Nbd(v) => NbdTail(v)
  }

  lemma BlkTextParts(d: BlkView)
    requires BlkText(d).Some?
    ensures BlkText(d).value == d.disk.devName + BlkTail(d)
  {
    var id := If(d.deviceIdentifier != "", Setting("deviceId", d.deviceIdentifier));
    assert d.disk.devName + DiskTail(d.disk) + id == d.disk.devName + (DiskTail(d.disk) + id);
  }

  lemma RegroupFive(name: string, a: string, b: string, c: string, d: string)
    ensures (name + a) + b + c + d == name + (a + b + c + d)
  {
  }

  lemma NbdTextParts(d: NbdView)
    requires NbdText(d).Some?
    ensures NbdText(d).value == d.storage.devName + NbdTail(d)
  {
    RegroupFive(d.storage.devName,
            Setting("uri", d.storage.uri) + If(d.storage.readOnly, Flag("readonly")),
            If(d.deviceIdentifier != "", Setting("deviceId", d.deviceIdentifier)),
            if Millis(d.timeout) > 0 then Setting("timeout", Dec(Millis(d.timeout))) else "",
            If(d.syncMode == "none" || d.syncMode == "full", Setting("sync", d.syncMode)));
  }

  lemma StorageTextParts(d: Device, raw: DiskOracle)
    requires d.Nvme? || d.Blk? || d.Usb? || d.Nbd?
    requires DeviceText(d).Some? && Readable(d, raw)
    ensures DeviceText(d).value == NameOf(KindOfDevice(d)) + Tail(d)
  {
    match d
    case Nvme(v) =>
    case Blk(v) => BlkTextParts(v);
    case Usb(v) =>
    case Nbd(v) => NbdTextParts(v);
  }

  lemma TextIsNameAndTail(d: Device, raw: DiskOracle)
    requires DeviceText(d).Some? && Readable(d, raw)
    ensures DeviceText(d).value == NameOf(KindOfDevice(d)) + Tail(d)
  {
    var text := NameOf(KindOfDevice(d)) + Tail(d);
    match d
    case Rosetta(v) => assert RosettaText(v).value == text;
    case Fs(v) => assert FsText(v).value == text;
    case Net(v) => assert NetText(v).value == text;
    case Rng => assert "virtio-rng" + "" == "virtio-rng";
    case Serial(v) => assert SerialText(v).value == text;
    case Vsock(v) => assert VsockText(v).value == text;
    case Input(v) => assert InputText(v).value == text;
    case Gpu(v) => assert GpuText(v).value == text;
    case Balloon => assert "virtio-balloon" + "" == "virtio-balloon";
    case _ => StorageTextParts(d, raw);
  }

  lemma TailStart(d: Device)
    requires DeviceText(d).Some?
    ensures Tail(d) == "" || Tail(d)[0] == ','
  {
  }

  lemma ShareTailRead(d: Device, raw: DiskOracle)
    requires d.Rosetta? || d.Fs? || d.Rng? || d.Balloon?
    requires DeviceText(d).Some? && Readable(d, raw)
    ensures FromOptions(KindOfDevice(d), TextOptions(Tail(d)), raw) == Some(d)
  {
    var opts := TextOptions(Tail(d));
    match d
    case Rosetta(v) => RosettaTailRead(v); assert FromOptions(KRosetta, opts, raw) == Some(d);
    case Fs(v) => FsTailRead(v); assert FromOptions(KFs, opts, raw) == Some(d);
    case Rng => NoOptions();
    case Balloon => NoOptions();
  }

  lemma ConsoleTailRead(d: Device, raw: DiskOracle)
    requires d.Serial? || d.Vsock? || d.Input? || d.Gpu?
    requires DeviceText(d).Some? && Readable(d, raw)
    ensures FromOptions(KindOfDevice(d), TextOptions(Tail(d)), raw) == Some(d)
  {
    var opts := TextOptions(Tail(d));
    match d
    case Serial(v) => SerialTailRead(v); assert FromOptions(KSerial, opts, raw) == Some(d);
    case Vsock(v) => VsockTailRead(v); assert FromOptions(KVsock, opts, raw) == Some(d);
    case Input(v) => InputTailRead(v); assert FromOptions(KInput, opts, raw) == Some(d);
    case Gpu(v) => GpuRead(v); assert FromOptions(KGpu, opts, raw) == Some(d);
  }

  lemma DiskKindTailRead(d: Device, raw: DiskOracle)
    requires d.Nvme? || d.Blk? || d.Usb?
    requires DeviceText(d).Some? && Readable(d, raw)
    ensures FromOptions(KindOfDevice(d), TextOptions(Tail(d)), raw) == Some(d)
  {
    var opts := TextOptions(Tail(d));
    match d
    case Nvme(v) => DiskTailRead(v, "nvme"); assert FromOptions(KNvme, opts, raw) == Some(d);
    case Blk(v) => BlkTailRead(v); assert FromOptions(KBlk, opts, raw) == Some(d);
    case Usb(v) => DiskTailRead(v, "usb-mass-storage"); assert FromOptions(KUsb, opts, raw) == Some(d);
  }

  lemma NetKindTailRead(v: NetView, raw: DiskOracle)
    requires NetText(v).Some? && NetReadable(v)
    ensures FromOptions(KNet, TextOptions(NetTail(v)), raw) == Some(Reread(Net(v)))
  {
    NetTailRead(v);
  }

  lemma NbdKindTailRead(v: NbdView, raw: DiskOracle)
    requires NbdText(v).Some? && NbdReadable(v)
    ensures FromOptions(KNbd, TextOptions(NbdTail(v)), raw) == Some(Reread(Nbd(v)))
  {
    NbdTailRead(v);
  }

  lemma TailRead(d: Device, raw: DiskOracle)
    requires DeviceText(d).Some? && Readable(d, raw)
    ensures FromOptions(KindOfDevice(d), TextOptions(Tail(d)), raw) == Some(Reread(d))
  {
    match d
    case Net(v) => NetKindTailRead(v, raw);
    case Nbd(v) => NbdKindTailRead(v, raw);
    case _ =>
      if d.Nvme? || d.Blk? || d.Usb? { DiskKindTailRead(d, raw); }
      else if d.Rosetta? || d.Fs? || d.Rng? || d.Balloon? { ShareTailRead(d, raw); }
      else { ConsoleTailRead(d, raw); }
      assert Reread(d) == d;
  }

  /** Printing a readable device and reading the text back gives the device, but for the two lost settings. */
  lemma PrintThenRead(d: Device, raw: DiskOracle)
    requires DeviceText(d).Some? && Readable(d, raw)
    ensures DeviceFromCmdLine(DeviceText(d).value, raw) == Some(Reread(d))
  {
    TextIsNameAndTail(d, raw);
    TailStart(d);
    ReadDevice(KindOfDevice(d), Tail(d), raw);
    TailRead(d, raw);
  }

  // ---------- What an accepted text can produce ----------

  lemma ParsedDisk(devName: string, opts: seq<Opt>)
    requires forall o :: o in opts ==> CommaFree(o)
    ensures Fold(DiskStep, FreshDisk(devName), opts).Some?
        ==> DiskReadable(Fold(DiskStep, FreshDisk(devName), opts).value, devName)
  {
    FoldKeeps(DiskStep, FreshDisk(devName), opts, d => DiskReadable(d, devName));
  }

  lemma ParsedBlk(opts: seq<Opt>)
    requires forall o :: o in opts ==> CommaFree(o)
    ensures var r := Fold(BlkStep, BlkView(FreshDisk("virtio-blk"), ""), opts);
            r.Some? ==> DiskReadable(r.value.disk, "virtio-blk") && Plain(r.value.deviceIdentifier)
  {
    FoldKeeps(BlkStep, BlkView(FreshDisk("virtio-blk"), ""), opts,
              (d: BlkView) => DiskReadable(d.disk, "virtio-blk") && Plain(d.deviceIdentifier));
  }

  lemma ParsedNet(opts: seq<Opt>)
    requires forall o :: o in opts ==> CommaFree(o)
    ensures NetFromOptions(FRESH_NET, opts).Some? ==> NetReadable(NetFromOptions(FRESH_NET, opts).value)
  {
    forall st: NetScan, o | o in opts && NetReadable(st.dev) && NetStep(st, o).Some?
      ensures NetReadable(NetStep(st, o).value.dev)
    {
      if o.key == "mac" { ParsedMacLength(o.value); }
    }
    FoldKeeps(NetStep, NetScan(NetPrescan(FRESH_NET, opts), false, false), opts, (st: NetScan) => NetReadable(st.dev));
  }

  lemma NbdStepReadable(d: NbdView, o: Opt)
    requires NbdReadable(d) && CommaFree(o) && NbdStep(d, o).Some?
    ensures NbdReadable(NbdStep(d, o).value)
  {
  }

  lemma ParsedNbd(opts: seq<Opt>)
    requires forall o :: o in opts ==> CommaFree(o)
    ensures Fold(NbdStep, FRESH_NBD, opts).Some? ==> NbdReadable(Fold(NbdStep, FRESH_NBD, opts).value)
  {
    forall d, o | o in opts && NbdReadable(d) && NbdStep(d, o).Some? ensures NbdReadable(NbdStep(d, o).value) {
      NbdStepReadable(d, o);
    }
    FoldKeeps(NbdStep, FRESH_NBD, opts, NbdReadable);
  }

  lemma ParsedOptions(kind: DeviceKind, opts: seq<Opt>, raw: DiskOracle)
    requires forall o :: o in opts ==> CommaFree(o)
    ensures FromOptions(kind, opts, raw).Some? ==> Readable(FromOptions(kind, opts, raw).value, raw)
    ensures FromOptions(kind, opts, raw).Some? ==> KindOfDevice(FromOptions(kind, opts, raw).value) == kind
  {
    match kind
    case KRosetta => FoldKeeps(RosettaStep, FRESH_ROSETTA, opts, (d: RosettaView) => Plain(d.mountTag));
    case KNvme => ParsedDisk("nvme", opts);
    case KBlk => ParsedBlk(opts);
    case KFs => FoldKeeps(FsStep, FRESH_FS, opts, (d: FsView) => Plain(d.sharedDir) && Plain(d.mountTag));
    case KNet => ParsedNet(opts);
    case KRng =>
    case KSerial => FoldKeeps(SerialStep, FRESH_SERIAL, opts, (d: SerialView) => Plain(d.logFile) && d.ptyName == "");
    case KVsock => FoldKeeps(VsockStep, FRESH_VSOCK.(listen := true), opts, (d: VsockView) => Plain(d.socketURL));
    case KUsb => ParsedDisk("usb-mass-storage", opts);
    case KInput =>
    case KGpu => FoldKeeps(GpuStep, FRESH_GPU, opts, (d: GpuView) => !d.usesGUI);
    case KBalloon =>
    case KNbd => ParsedNbd(opts);
  }

  /** Whatever text is accepted, the device it yields is readable: comma-free texts, bounded numbers. */
  lemma AcceptedIsReadable(text: string, raw: DiskOracle)
    ensures DeviceFromCmdLine(text, raw).Some? ==> Readable(DeviceFromCmdLine(text, raw).value, raw)
  {
    var parts := Split(text, ',');
    SplitParts(text, ',');
    OptionsOfCommaFree(parts[1..]);
    match KindOf(parts[0])
    case None =>
    case Some(kind) => ParsedOptions(kind, OptionsOf(parts[1..]), raw);
  }

  // ---------- The two main results ----------

  lemma RereadUnchanged(d: Device, raw: DiskOracle)
    requires DeviceText(d).Some? && Readable(d, raw)
    ensures Reread(d) == d <==> Survives(d)
  {
  }

  /** A printable device comes back from its own text exactly when it is readable and nothing is left out. */
  lemma DeviceRoundTrips(d: Device, raw: DiskOracle)
    requires DeviceText(d).Some?
    ensures DeviceFromCmdLine(DeviceText(d).value, raw) == Some(d) <==> Readable(d, raw) && Survives(d)
  {
    AcceptedIsReadable(DeviceText(d).value, raw);
    if Readable(d, raw) {
      PrintThenRead(d, raw);
      RereadUnchanged(d, raw);
    }
  }

  /** Reading, printing and reading again: the first reading is kept, but for the two lost settings. */
  lemma ReadPrintRead(text: string, raw: DiskOracle)
    requires DeviceFromCmdLine(text, raw).Some?
    requires DeviceText(DeviceFromCmdLine(text, raw).value).Some?
    ensures var d := DeviceFromCmdLine(text, raw).value;
            && DeviceFromCmdLine(DeviceText(d).value, raw) == Some(Reread(d))
            && (Reread(d) == d <==> Survives(d))
  {
    AcceptedIsReadable(text, raw);
    var d := DeviceFromCmdLine(text, raw).value;
    PrintThenRead(d, raw);
    RereadUnchanged(d, raw);
  }
}
