/** Exactly which devices, bootloaders and machines can be printed, and what is printed: the text of a device is its
    fields joined by commas. */
module Printing {
  import opened Text
  import opened Options
  import opened Devices
  import opened DeviceRoundTrip
  import opened Bootloaders
  import opened Config

  // ---------- Which devices print, and their fields ----------

  predicate ExactlyOne(a: bool, b: bool, c: bool) { (a || b || c) && !(a && b) && !(a && c) && !(b && c) }

  predicate CanPrint(d: Device) {
    match d
    case Rosetta(v) => v.mountTag != ""
    case Nvme(v) => v.imagePath != ""
    case Usb(v) => v.imagePath != ""
    case Blk(v) => v.disk.imagePath != ""
    case Fs(v) => v.sharedDir != ""
    case Net(v) =>
      && ExactlyOne(v.usesNat, v.socket.Some?, v.unixSocketPath != "")
      && (v.socket.Some? ==> v.socket.value.Descriptor?)
    case Rng => true
    case Serial(v) => ExactlyOne(v.logFile != "", v.usesStdio, v.usesPty)
    case Vsock(v) => v.port != 0 && v.socketURL != ""
    case Input(v) => v.inputType == "pointing" || v.inputType == "keyboard"
    case Gpu(v) => v.width > 0 && v.height > 0
    case Balloon => true
    case Nbd(v) => v.storage.uri != ""
  }

  function Field(key: string, value: string): string { key + "=" + value }

  function Optional(present: bool, field: string): seq<string> { if present then [field] else [] }

  function DiskFields(d: DiskView): seq<string> {
    [d.devName] + [Field("path", d.imagePath)]
    + Optional(d.backend != "", Field("type", d.backend)) + Optional(d.readOnly, "readonly")
  }

  function AttachmentFields(d: NetView): seq<string> {
    if d.usesNat then ["nat"]
    else if d.socket.Some? && d.socket.value.Descriptor? then [Field("fd", Dec(d.socket.value.fd))]
    else if d.vfkitMagic then [Field("unixSocketPath", d.unixSocketPath)]
    else [Field("type", "unixgram")] + [Field("path", d.unixSocketPath)] + [Field("vfkitMagic", "off")]
  }

  function NetFields(d: NetView): seq<string> {
    ["virtio-net"] + AttachmentFields(d) + Optional(d.mac != [], Field("mac", MacString(d.mac)))
  }

  function NbdFields(d: NbdView): seq<string> {
    [d.storage.devName] + [Field("uri", d.storage.uri)] + Optional(d.storage.readOnly, "readonly")
    + Optional(d.deviceIdentifier != "", Field("deviceId", d.deviceIdentifier))
    + (if d.timeout >= 1_000_000 then [Field("timeout", Dec(d.timeout / 1_000_000))] else [])
    + Optional(d.syncMode == "full" || d.syncMode == "none", Field("sync", d.syncMode))
  }

  function DeviceFields(d: Device): seq<string>
    requires CanPrint(d)
  {
    match d
    case Rosetta(v) =>
      ["rosetta"] + [Field("mountTag", v.mountTag)]
      + Optional(v.installRosetta, "install") + Optional(v.ignoreIfMissing, "ignore-if-missing")
    case Nvme(v) => DiskFields(v)
    case Usb(v) => DiskFields(v)
    case Blk(v) => DiskFields(v.disk) + Optional(v.deviceIdentifier != "", Field("deviceId", v.deviceIdentifier))
    case Fs(v) =>
      ["virtio-fs"] + [Field("sharedDir", v.sharedDir)] + Optional(v.mountTag != "", Field("mountTag", v.mountTag))
    case Net(v) => NetFields(v)
    case Rng => ["virtio-rng"]
    case Serial(v) =>
      ["virtio-serial"]
      + [if v.usesStdio then "stdio" else if v.usesPty then "pty" else Field("logFilePath", v.logFile)]
    case Vsock(v) =>
      ["virtio-vsock"] + [Field("port", Dec(v.port))] + [Field("socketURL", v.socketURL)]
      + [if v.listen then "listen" else "connect"]
    case Input(v) => ["virtio-input"] + [v.inputType]
    case Gpu(v) => ["virtio-gpu"] + [Field("width", Dec(v.width))] + [Field("height", Dec(v.height))]
    case Balloon => ["virtio-balloon"]
    case Nbd(v) => NbdFields(v)
  }

  // ---------- Appending is joining ----------

  lemma {:induction false} JoinSnoc(parts: seq<string>, field: string)
    requires parts != []
    ensures Join(parts + [field], ',') == Join(parts, ',') + ("," + field)
  {
    if |parts| == 1 {
      assert (parts + [field])[1..] == [field];
    } else {
      assert (parts + [field])[1..] == parts[1..] + [field];
      JoinSnoc(parts[1..], field);
      var rest := Join(parts[1..], ',');
      assert parts[0] + ("," + (rest + ("," + field))) == (parts[0] + ("," + rest)) + ("," + field);
    }
  }

  lemma JoinSetting(text: string, parts: seq<string>, key: string, value: string)
    requires parts != [] && text == Join(parts, ',')
    ensures text + Setting(key, value) == Join(parts + [Field(key, value)], ',')
  {
    JoinSnoc(parts, Field(key, value));
    assert "," + Field(key, value) == Setting(key, value);
  }

  lemma JoinFlag(text: string, parts: seq<string>, key: string)
    requires parts != [] && text == Join(parts, ',')
    ensures text + Flag(key) == Join(parts + [key], ',')
  {
    JoinSnoc(parts, key);
  }

  lemma JoinOptionalSetting(text: string, parts: seq<string>, present: bool, key: string, value: string)
    requires parts != [] && text == Join(parts, ',')
    ensures text + If(present, Setting(key, value)) == Join(parts + Optional(present, Field(key, value)), ',')
  {
    if present {
      JoinSetting(text, parts, key, value);
    } else {
      assert text + "" == text && parts + [] == parts;
    }
  }

  lemma JoinOptionalFlag(text: string, parts: seq<string>, present: bool, key: string)
    requires parts != [] && text == Join(parts, ',')
    ensures text + If(present, Flag(key)) == Join(parts + Optional(present, key), ',')
  {
    if present {
      JoinFlag(text, parts, key);
    } else {
      assert text + "" == text && parts + [] == parts;
    }
  }

  lemma Associate(a: string, b: string, c: string, d: string)
    ensures a + (b + c) == a + b + c
    ensures a + (b + c + d) == a + b + c + d
  {
  }

  lemma RosettaPrints(v: RosettaView)
    requires v.mountTag != ""
    ensures "rosetta" + RosettaTail(v) == Join(DeviceFields(Rosetta(v)), ',')
  {
    var p := ["rosetta"] + [Field("mountTag", v.mountTag)];
    var t := "rosetta" + Setting("mountTag", v.mountTag);
    Associate("rosetta", Setting("mountTag", v.mountTag), If(v.installRosetta, Flag("install")),
              If(v.ignoreIfMissing, Flag("ignore-if-missing")));
    JoinSetting("rosetta", ["rosetta"], "mountTag", v.mountTag);
    JoinOptionalFlag(t, p, v.installRosetta, "install");
    JoinOptionalFlag(t + If(v.installRosetta, Flag("install")), p + Optional(v.installRosetta, "install"),
                     v.ignoreIfMissing, "ignore-if-missing");
  }

  lemma DiskPrints(d: DiskView)
    ensures d.devName + DiskTail(d) == Join(DiskFields(d), ',')
  {
    var p := [d.devName] + [Field("path", d.imagePath)];
    var t := d.devName + Setting("path", d.imagePath);
    Associate(d.devName, Setting("path", d.imagePath), If(d.backend != "", Setting("type", d.backend)),
              If(d.readOnly, Flag("readonly")));
    JoinSetting(d.devName, [d.devName], "path", d.imagePath);
    JoinOptionalSetting(t, p, d.backend != "", "type", d.backend);
    JoinOptionalFlag(t + If(d.backend != "", Setting("type", d.backend)),
                     p + Optional(d.backend != "", Field("type", d.backend)), d.readOnly, "readonly");
  }

  lemma BlkPrints(v: BlkView)
    requires v.disk.imagePath != ""
    ensures BlkText(v) == Some(Join(DeviceFields(Blk(v)), ','))
  {
    DiskPrints(v.disk);
    JoinOptionalSetting(v.disk.devName + DiskTail(v.disk), DiskFields(v.disk), v.deviceIdentifier != "", "deviceId",
                        v.deviceIdentifier);
  }

  lemma FsPrints(v: FsView)
    requires v.sharedDir != ""
    ensures FsText(v) == Some(Join(DeviceFields(Fs(v)), ','))
  {
    var t := "virtio-fs" + Setting("sharedDir", v.sharedDir);
    Associate("virtio-fs", Setting("sharedDir", v.sharedDir), If(v.mountTag != "", Setting("mountTag", v.mountTag)),
              "");
    JoinSetting("virtio-fs", ["virtio-fs"], "sharedDir", v.sharedDir);
    JoinOptionalSetting(t, ["virtio-fs"] + [Field("sharedDir", v.sharedDir)], v.mountTag != "", "mountTag", v.mountTag);
  }

  lemma SerialPrints(v: SerialView)
    requires CanPrint(Serial(v))
    ensures SerialText(v) == Some(Join(DeviceFields(Serial(v)), ','))
  {
    if v.usesStdio {
      JoinFlag("virtio-serial", ["virtio-serial"], "stdio");
    } else if v.usesPty {
      JoinFlag("virtio-serial", ["virtio-serial"], "pty");
    } else {
      JoinSetting("virtio-serial", ["virtio-serial"], "logFilePath", v.logFile);
    }
  }

  lemma VsockPrints(v: VsockView)
    requires v.port != 0 && v.socketURL != ""
    ensures VsockText(v) == Some(Join(DeviceFields(Vsock(v)), ','))
  {
    var name, port, url := "virtio-vsock", Setting("port", Dec(v.port)), Setting("socketURL", v.socketURL);
    var p := [name] + [Field("port", Dec(v.port))];
    Associate(name, port, url, Flag(if v.listen then "listen" else "connect"));
    JoinSetting(name, [name], "port", Dec(v.port));
    JoinSetting(name + port, p, "socketURL", v.socketURL);
    JoinFlag(name + port + url, p + [Field("socketURL", v.socketURL)], if v.listen then "listen" else "connect");
  }

  lemma GpuPrints(v: GpuView)
    requires v.width > 0 && v.height > 0
    ensures GpuText(v) == Some(Join(DeviceFields(Gpu(v)), ','))
  {
    var name, width := "virtio-gpu", Setting("width", Dec(v.width));
    Associate(name, width, Setting("height", Dec(v.height)), "");
    JoinSetting(name, [name], "width", Dec(v.width));
    JoinSetting(name + width, [name] + [Field("width", Dec(v.width))], "height", Dec(v.height));
  }

  lemma UnixgramPrints(path: string)
    ensures "virtio-net" + (Setting("type", "unixgram") + Setting("path", path) + Setting("vfkitMagic", "off"))
         == Join(["virtio-net"]
                 + ([Field("type", "unixgram")] + [Field("path", path)] + [Field("vfkitMagic", "off")]), ',')
  {
    var name, a, b := "virtio-net", Setting("type", "unixgram"), Setting("path", path);
    var p := [name] + [Field("type", "unixgram")];
    Associate(name, a, b, Setting("vfkitMagic", "off"));
    JoinSetting(name, [name], "type", "unixgram");
    JoinSetting(name + a, p, "path", path);
    JoinSetting(name + a + b, p + [Field("path", path)], "vfkitMagic", "off");
    assert p + [Field("path", path)] + [Field("vfkitMagic", "off")]
        == [name] + ([Field("type", "unixgram")] + [Field("path", path)] + [Field("vfkitMagic", "off")]);
  }

  lemma AttachmentPrints(d: NetView)
    requires CanPrint(Net(d))
    ensures NetPrintable(d)
    ensures "virtio-net" + NetAttachment(d) == Join(["virtio-net"] + AttachmentFields(d), ',')
  {
    var name := "virtio-net";
    if d.usesNat {
      JoinFlag(name, [name], "nat");
    } else if d.socket.Some? {
      JoinSetting(name, [name], "fd", Dec(d.socket.value.fd));
    } else if d.vfkitMagic {
      JoinSetting(name, [name], "unixSocketPath", d.unixSocketPath);
    } else {
      UnixgramPrints(d.unixSocketPath);
    }
  }

  lemma NetPrints(d: NetView)
    requires CanPrint(Net(d))
    ensures NetText(d) == Some(Join(DeviceFields(Net(d)), ','))
  {
    AttachmentPrints(d);
    var name, a, mac := "virtio-net", NetAttachment(d), MacString(d.mac);
    JoinOptionalSetting(name + a, [name] + AttachmentFields(d), d.mac != [], "mac", mac);
    Associate(name, a, If(d.mac != [], Setting("mac", mac)), "");
  }

  lemma MillisMeaning(timeout: int)
    ensures Millis(timeout) > 0 <==> timeout >= 1_000_000
    ensures timeout >= 1_000_000 ==> Millis(timeout) == timeout / 1_000_000
  {
  }

  lemma NbdPrints(d: NbdView)
    requires d.storage.uri != ""
    ensures NbdText(d) == Some(Join(DeviceFields(Nbd(d)), ','))
  {
    var uri, flag := Setting("uri", d.storage.uri), If(d.storage.readOnly, Flag("readonly"));
    var id := If(d.deviceIdentifier != "", Setting("deviceId", d.deviceIdentifier));
    var p := [d.storage.devName] + [Field("uri", d.storage.uri)];
    var q := p + Optional(d.storage.readOnly, "readonly");
    var r := q + Optional(d.deviceIdentifier != "", Field("deviceId", d.deviceIdentifier));
    var t := d.storage.devName + (uri + flag);
    Associate(d.storage.devName, uri, flag, "");
    JoinSetting(d.storage.devName, [d.storage.devName], "uri", d.storage.uri);
    JoinOptionalFlag(d.storage.devName + uri, p, d.storage.readOnly, "readonly");
    JoinOptionalSetting(t, q, d.deviceIdentifier != "", "deviceId", d.deviceIdentifier);
    NbdEndPrints(d, t + id, r);
  }

  lemma NbdEndPrints(d: NbdView, text: string, parts: seq<string>)
    requires parts != [] && text == Join(parts, ',')
    ensures text + (if Millis(d.timeout) > 0 then Setting("timeout", Dec(Millis(d.timeout))) else "")
              + If(d.syncMode == "none" || d.syncMode == "full", Setting("sync", d.syncMode))
         == Join(parts + (if d.timeout >= 1_000_000 then [Field("timeout", Dec(d.timeout / 1_000_000))] else [])
                   + Optional(d.syncMode == "full" || d.syncMode == "none", Field("sync", d.syncMode)), ',')
  {
    MillisMeaning(d.timeout);
    var timeout := if Millis(d.timeout) > 0 then Setting("timeout", Dec(Millis(d.timeout))) else "";
    var fields := if d.timeout >= 1_000_000 then [Field("timeout", Dec(d.timeout / 1_000_000))] else [];
    if d.timeout >= 1_000_000 {
      JoinSetting(text, parts, "timeout", Dec(d.timeout / 1_000_000));
    } else {
      assert text + "" == text && parts + [] == parts;
    }
    JoinOptionalSetting(text + timeout, parts + fields, d.syncMode == "full" || d.syncMode == "none", "sync",
                        d.syncMode);
  }

  /** A device can be printed exactly when it satisfies CanPrint, and its text is its fields joined by commas. */
  lemma DevicePrints(d: Device)
    ensures DeviceText(d) == if CanPrint(d) then Some(Join(DeviceFields(d), ',')) else None
  {
    if CanPrint(d) {
      match d
      case Rosetta(v) => RosettaPrints(v);
      case Nvme(v) => DiskPrints(v);
      case Usb(v) => DiskPrints(v);
      case Blk(v) => BlkPrints(v);
      case Fs(v) => FsPrints(v);
      case Net(v) => NetPrints(v);
      case Rng =>
      case Serial(v) => SerialPrints(v);
      case Vsock(v) => VsockPrints(v);
      case Input(v) => JoinFlag("virtio-input", ["virtio-input"], v.inputType);
      case Gpu(v) => GpuPrints(v);
      case Balloon =>
      case Nbd(v) => NbdPrints(v);
    }
  }

  // ---------- Reading a printed text and printing again ----------

  /** A printed text that can be read is printed again as it is, unless it comes from an nbd device with a timeout of
      less than a millisecond: the text then gains the default timeout. */
  lemma PrintReadPrint(d: Device, raw: DiskOracle)
    requires CanPrint(d) && Readable(d, raw)
    ensures var text := Join(DeviceFields(d), ',');
            && DeviceFromCmdLine(text, raw).Some?
            && (DeviceText(DeviceFromCmdLine(text, raw).value) == Some(text)
                <==> !(d.Nbd? && d.nbd.timeout < 1_000_000))
  {
    DevicePrints(d);
    PrintThenRead(d, raw);
    DevicePrints(Reread(d));
    if d.Nbd? && d.nbd.timeout < 1_000_000 {
      TimeoutAppears(d.nbd);
    } else if d.Net? {
      assert DeviceFields(Reread(d)) == DeviceFields(d);
    }
  }

  lemma {:induction false} JoinGrows(a: seq<string>, field: string, b: seq<string>)
    requires a != []
    ensures |Join(a + [field] + b, ',')| == |Join(a + b, ',')| + 1 + |field|
    decreases |b|
  {
    if b == [] {
      JoinSnoc(a, field);
      assert a + [field] + [] == a + [field] && a + [] == a;
    } else {
      var c, last := b[..|b|-1], b[|b|-1];
      JoinGrows(a, field, c);
      JoinSnoc(a + [field] + c, last);
      JoinSnoc(a + c, last);
      assert a + [field] + b == (a + [field] + c) + [last] && a + b == (a + c) + [last];
    }
  }

  lemma TimeoutAppears(v: NbdView)
    requires v.timeout < 1_000_000
    ensures Join(NbdFields(v), ',') != Join(NbdFields(v.(timeout := 15_000_000_000)), ',')
  {
    var start := [v.storage.devName] + [Field("uri", v.storage.uri)] + Optional(v.storage.readOnly, "readonly")
                 + Optional(v.deviceIdentifier != "", Field("deviceId", v.deviceIdentifier));
    var end := Optional(v.syncMode == "full" || v.syncMode == "none", Field("sync", v.syncMode));
    JoinGrows(start, Field("timeout", Dec(15_000)), end);
    assert NbdFields(v) == start + end by { assert start + [] == start; }
  }

  // ---------- Bootloaders ----------

  predicate CanBoot(b: Bootloader) {
    match b
    case Linux(v) => v.vmlinuzPath != "" && v.initrdPath != "" && v.kernelCmdLine != ""
    case Efi(v) => v.storePath != ""
    case MacOS(_) => true
  }

  function BootArguments(b: Bootloader): seq<string> {
    match b
    case Linux(v) => ["--kernel", v.vmlinuzPath, "--initrd", v.initrdPath, "--kernel-cmdline", v.kernelCmdLine]
    case Efi(v) =>
      ["--bootloader", Join(["efi"] + [Field("variable-store", v.storePath)] + Optional(v.create, "create"), ',')]
    case MacOS(_) => []
  }

  lemma BootloaderPrints(b: Bootloader)
    ensures Args(b) == if CanBoot(b) then Some(BootArguments(b)) else None
  {
    if b.Efi? {
      var v := b.efi;
      var store := Setting("variable-store", v.storePath);
      Associate("efi", store, If(v.create, Flag("create")), "");
      JoinSetting("efi", ["efi"], "variable-store", v.storePath);
      JoinOptionalFlag("efi" + store, ["efi"] + [Field("variable-store", v.storePath)], v.create, "create");
    }
  }

  // ---------- Whole machines ----------

  predicate CanPrintVm(vm: VM) {
    && vm.bootloader.Some? && CanBoot(vm.bootloader.value)
    && forall i :: 0 <= i < |vm.devices| ==> CanPrint(vm.devices[i])
  }

  function DeviceArguments(devices: seq<Device>): seq<string>
    requires forall i :: 0 <= i < |devices| ==> CanPrint(devices[i])
  {
    if devices == [] then []
    else ["--device", Join(DeviceFields(devices[0]), ',')] + DeviceArguments(devices[1..])
  }

  lemma {:induction false} DevicesPrint(devices: seq<Device>)
    ensures DevicesArgs(devices).Some? <==> forall i :: 0 <= i < |devices| ==> CanPrint(devices[i])
    ensures DevicesArgs(devices).Some? ==> DevicesArgs(devices).value == DeviceArguments(devices)
  {
    if devices != [] {
      var rest := devices[1..];
      DevicePrints(devices[0]);
      DevicesPrint(rest);
      assert forall i :: 0 <= i < |rest| ==> rest[i] == devices[i+1];
      if CanPrint(devices[0]) && forall i :: 0 <= i < |rest| ==> CanPrint(rest[i]) {
        forall i | 0 <= i < |devices| ensures CanPrint(devices[i]) {
          if i > 0 { assert CanPrint(rest[i-1]); }
        }
      }
    }
  }

  /** Sizes of zero are left out; the memory is in MiB, rounded up in 64-bit words. */
  function SizeArguments(vm: VM): seq<string> {
    (if vm.vcpus == 0 then [] else ["--cpus", Dec(vm.vcpus)])
    + (if vm.memory == 0 then []
       else ["--memory", Dec((vm.memory + 1_048_575) % 0x1_0000_0000_0000_0000 / 1_048_576)])
  }

  function VmArguments(vm: VM): seq<string>
    requires CanPrintVm(vm)
  {
    SizeArguments(vm) + BootArguments(vm.bootloader.value) + DeviceArguments(vm.devices)
    + (if vm.ignition.Some? then ["--ignition", vm.ignition.value.configPath] else [])
    + (if vm.nested then ["--nested"] else [])
  }

  /** A machine can be printed exactly when it has a bootloader that can, and so can each of its devices. */
  lemma VmPrints(vm: VM)
    ensures VmArgs(vm) == if CanPrintVm(vm) then Some(VmArguments(vm)) else None
  {
    if vm.bootloader.Some? { BootloaderPrints(vm.bootloader.value); }
    DevicesPrint(vm.devices);
    assert SizeArgs(vm) == SizeArguments(vm);
  }
}
