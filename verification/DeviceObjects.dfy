/** The device objects themselves: reading options updates fields in place, printing appends to a text. */
module DeviceObjects {
  import opened Text
  import opened Options
  import opened Devices
  import opened OptionOrder
  import opened DeviceRoundTrip

  /** Appending to a builder piece by piece. */
  lemma Appended(text: string, a: string, b: string, c: string)
    ensures text + a + b + c == text + (a + b + c)
    ensures text + a + b == text + (a + b)
    ensures text + "" == text
  {
  }

  class RosettaShare {
    var mountTag: string
    var installRosetta: bool
    var ignoreIfMissing: bool

    function View(): RosettaView
      reads this
    {
      RosettaView(mountTag, installRosetta, ignoreIfMissing)
    }

    constructor ()
      ensures View() == FRESH_ROSETTA
    {
      mountTag, installRosetta, ignoreIfMissing := "", false, false;
    }

    method FromOptions(options: seq<Opt>) returns (ok: bool)
      modifies this
      ensures Fold(RosettaStep, old(View()), options) == if ok then Some(View()) else None
    {
      for i := 0 to |options|
        invariant Fold(RosettaStep, old(View()), options) == Fold(RosettaStep, View(), options[i..])
      {
        var option := options[i];
        assert options[i..][1..] == options[i+1..];
        match option.key
        case "mountTag" => mountTag := option.value;
        case "install" => installRosetta := true;
        case "ignore-if-missing" => ignoreIfMissing := true;
        case _ => return false;
      }
      return true;
    }

    method ToCmdLine() returns (r: Option<seq<string>>)
      ensures r == DeviceArgs(Rosetta(View()))
    {
      if mountTag == "" { return None; }
      var builder := "rosetta" + Setting("mountTag", mountTag);
      Appended("rosetta", Setting("mountTag", mountTag), "", "");
      if installRosetta { builder := builder + Flag("install"); }
      assert builder == "rosetta" + Setting("mountTag", mountTag) + If(installRosetta, Flag("install"));
      Appended(builder, "", "", "");
      if ignoreIfMissing { builder := builder + Flag("ignore-if-missing"); }
      Appended("rosetta", Setting("mountTag", mountTag), If(installRosetta, Flag("install")),
               If(ignoreIfMissing, Flag("ignore-if-missing")));
      r := Some(["--device", builder]);
    }
  }

  class VirtioFs {
    var mountTag: string
    var sharedDir: string

    function View(): FsView
      reads this
    {
      FsView(mountTag, sharedDir)
    }

    constructor ()
      ensures View() == FRESH_FS
    {
      mountTag, sharedDir := "", "";
    }

    method FromOptions(options: seq<Opt>) returns (ok: bool)
      modifies this
      ensures Fold(FsStep, old(View()), options) == if ok then Some(View()) else None
    {
      for i := 0 to |options|
        invariant Fold(FsStep, old(View()), options) == Fold(FsStep, View(), options[i..])
      {
        var option := options[i];
        assert options[i..][1..] == options[i+1..];
        match option.key
        case "sharedDir" => sharedDir := option.value;
        case "mountTag" => mountTag := option.value;
        case _ => return false;
      }
      return true;
    }
  }

  class VirtioVsock {
    var port: Uint32
    var socketURL: string
    var listen: bool

    function View(): VsockView
      reads this
    {
      VsockView(port, socketURL, listen)
    }

    constructor ()
      ensures View() == FRESH_VSOCK
    {
      port, socketURL, listen := 0, "", false;
    }

    method FromOptions(options: seq<Opt>) returns (ok: bool)
      modifies this
      ensures Fold(VsockStep, old(View()).(listen := true), options) == if ok then Some(View()) else None
    {
      listen := true;
      for i := 0 to |options|
        invariant Fold(VsockStep, old(View()).(listen := true), options) == Fold(VsockStep, View(), options[i..])
      {
        var option := options[i];
        assert options[i..][1..] == options[i+1..];
        match option.key
        case "socketURL" => socketURL := option.value;
        case "port" =>
          var parsed := ParseUint(option.value, MAX_UINT32);
          if parsed.None? { return false; }
          port := parsed.value;
        case "listen" => listen := true;
        case "connect" => listen := false;
        case _ => return false;
      }
      return true;
    }
  }

  class VirtioSerial {
    var logFile: string
    var usesStdio: bool
    var usesPty: bool
    var ptyName: string

    function View(): SerialView
      reads this
    {
      SerialView(logFile, usesStdio, usesPty, ptyName)
    }

    constructor ()
      ensures View() == FRESH_SERIAL
    {
      logFile, usesStdio, usesPty, ptyName := "", false, false, "";
    }

    method FromOptions(options: seq<Opt>) returns (ok: bool)
      modifies this
      ensures Checked(Fold(SerialStep, old(View()), options), SerialValid) == if ok then Some(View()) else None
    {
      for i := 0 to |options|
        invariant Fold(SerialStep, old(View()), options) == Fold(SerialStep, View(), options[i..])
      {
        var option := options[i];
        assert options[i..][1..] == options[i+1..];
        match option.key
        case "logFilePath" => logFile := option.value;
        case "stdio" =>
          if option.value != "" { return false; }
          usesStdio := true;
        case "pty" => usesPty := true;
        case _ => return false;
      }
      return SerialValid(View());
    }
  }

  class VirtioInput {
    var inputType: string

    function View(): InputView
      reads this
    {
      InputView(inputType)
    }

    constructor ()
      ensures View() == FRESH_INPUT
    {
      inputType := "";
    }

    method FromOptions(options: seq<Opt>) returns (ok: bool)
      modifies this
      ensures Checked(Fold(InputStep, old(View()), options), InputValid) == if ok then Some(View()) else None
    {
      for i := 0 to |options|
        invariant Fold(InputStep, old(View()), options) == Fold(InputStep, View(), options[i..])
      {
        var option := options[i];
        assert options[i..][1..] == options[i+1..];
        if option.key != "pointing" && option.key != "keyboard" { return false; }
        if option.value != "" { return false; }
        inputType := option.key;
      }
      return InputValid(View());
    }
  }

  class VirtioGPU {
    var usesGUI: bool
    var width: Int64
    var height: Int64

    function View(): GpuView
      reads this
    {
      GpuView(usesGUI, width, height)
    }

    constructor ()
      ensures View() == FRESH_GPU
    {
      usesGUI, width, height := false, 0, 0;
    }

    method FromOptions(options: seq<Opt>) returns (ok: bool)
      modifies this
      ensures GpuFromOptions(old(View()), options) == if ok then Some(View()) else None
    {
      for i := 0 to |options|
        invariant Fold(GpuStep, old(View()), options) == Fold(GpuStep, View(), options[i..])
      {
        var option := options[i];
        assert options[i..][1..] == options[i+1..];
        var parsed := ParseDimension(option.value);
        match option.key
        case "height" =>
          if parsed.None? { return false; }
          height := parsed.value;
        case "width" =>
          if parsed.None? { return false; }
          width := parsed.value;
        case _ => return false;
      }
      if width == 0 && height == 0 {
        width := DEFAULT_WIDTH;
        height := DEFAULT_HEIGHT;
      }
      return GpuValid(View());
    }
  }

  class VirtioNet {
    var usesNat: bool
    var mac: seq<Byte>
    var socket: Option<Socket>
    var unixSocketPath: string
    var vfkitMagic: bool

    function View(): NetView
      reads this
    {
      NetView(usesNat, mac, socket, unixSocketPath, vfkitMagic)
    }

    constructor ()
      ensures View() == FRESH_NET
    {
      usesNat, mac, socket, unixSocketPath, vfkitMagic := false, [], None, "", false;
    }

    method SetSocket(fd: nat)
      modifies this
      ensures View() == old(View()).(socket := Some(Descriptor(fd)), usesNat := false)
    {
      socket := Some(Descriptor(fd));
      usesNat := false;
    }

    method SetUnixSocketPath(path: string)
      modifies this
      ensures View() == old(View()).(unixSocketPath := path, usesNat := false, vfkitMagic := true)
    {
      unixSocketPath := path;
      usesNat := false;
      vfkitMagic := true;
    }

    /** The body of the option loop, with its two local variables. */
    method ReadOption(option: Opt, hasType: bool, typeOnlyOptions: seq<string>)
      returns (ok: bool, typed: bool, typeOnly: seq<string>)
      modifies this
      ensures NetStep(NetScan(old(View()), hasType, typeOnlyOptions != []), option)
           == if ok then Some(NetScan(View(), typed, typeOnly != [])) else None
    {
      ok, typed, typeOnly := true, hasType, typeOnlyOptions;
      match option.key
      case "nat" =>
        if option.value != "" { return false, typed, typeOnly; }
        usesNat := true;
      case "mac" =>
        var parsed := ParseMac(option.value);
        if parsed.None? { return false, typed, typeOnly; }
        mac := parsed.value;
      case "fd" =>
        var fd := ParseInt(option.value, MAX_INT64);
        if fd.None? || fd.value < 0 || fd.value > MAX_INT32 { return false, typed, typeOnly; }
        socket := Some(Descriptor(fd.value));
      case "unixSocketPath" => unixSocketPath := option.value;
      case "type" =>
        if option.value != "unixgram" { return false, typed, typeOnly; }
        typed := true;
      case "path" =>
        unixSocketPath := option.value;
        typeOnly := typeOnly + [option.key];
      case "vfkitMagic" =>
        if option.value != "on" && option.value != "off" { return false, typed, typeOnly; }
        vfkitMagic := option.value == "on";
      case "offloading" =>
        if option.value != "off" { return false, typed, typeOnly; }
        typeOnly := typeOnly + [option.key];
      case _ => ok := false;
    }

    method FromOptions(options: seq<Opt>) returns (ok: bool)
      modifies this
      ensures NetFromOptions(old(View()), options) == if ok then Some(View()) else None
    {
      var hasType, typeOnlyOptions: seq<string> := false, [];
      if exists option :: option in options && IsPathOption(option) {
        vfkitMagic := true;
      }
      ghost var start := NetScan(View(), false, false);
      assert start == NetScan(NetPrescan(old(View()), options), false, false);
      for i := 0 to |options|
        invariant Fold(NetStep, start, options)
               == Fold(NetStep, NetScan(View(), hasType, typeOnlyOptions != []), options[i..])
      {
        assert options[i..][1..] == options[i+1..];
        ok, hasType, typeOnlyOptions := ReadOption(options[i], hasType, typeOnlyOptions);
        if !ok { return; }
      }
      if hasType && unixSocketPath == "" { return false; }
      if !hasType && |typeOnlyOptions| > 0 { return false; }
      return NetValid(View());
    }

    method ToCmdLine() returns (r: Option<seq<string>>)
      ensures r == DeviceArgs(Net(View()))
    {
      if !NetPrintable(View()) { return None; }
      var builder := "virtio-net";
      if usesNat {
        builder := builder + Flag("nat");
      } else if unixSocketPath != "" {
        if vfkitMagic {
          builder := builder + Setting("unixSocketPath", unixSocketPath);
        } else {
          builder := builder + Setting("type", "unixgram");
          builder := builder + Setting("path", unixSocketPath);
          builder := builder + Setting("vfkitMagic", "off");
          Appended("virtio-net", Setting("type", "unixgram"), Setting("path", unixSocketPath),
                   Setting("vfkitMagic", "off"));
        }
      } else {
        builder := builder + Setting("fd", Dec(socket.value.fd));
      }
      assert builder == "virtio-net" + NetAttachment(View());
      Appended("virtio-net", NetAttachment(View()), Setting("mac", MacString(mac)), "");
      Appended(NetAttachment(View()), "", "", "");
      if |mac| != 0 {
        builder := builder + Setting("mac", MacString(mac));
      }
      r := Some(["--device", builder]);
    }
  }

  /** The part virtio-blk, nvme and usb-mass-storage devices share. */
  class DiskStorageConfig {
    const devName: string
    var readOnly: bool
    var imagePath: string
    var backend: string

    function View(): DiskView
      reads this
    {
      DiskView(devName, readOnly, imagePath, backend)
    }

    constructor (name: string)
      ensures View() == FreshDisk(name)
    {
      devName, readOnly, imagePath, backend := name, false, "", "";
    }

    method FromOptions(options: seq<Opt>) returns (ok: bool)
      modifies this
      ensures Fold(DiskStep, old(View()), options) == if ok then Some(View()) else None
    {
      for i := 0 to |options|
        invariant Fold(DiskStep, old(View()), options) == Fold(DiskStep, View(), options[i..])
      {
        var option := options[i];
        assert options[i..][1..] == options[i+1..];
        match option.key
        case "path" => imagePath := option.value;
        case "type" =>
          if !IsBackend(option.value) { return false; }
          backend := option.value;
        case "readonly" =>
          if option.value != "" { return false; }
          readOnly := true;
        case _ => return false;
      }
      return true;
    }

    method ToCmdLine() returns (r: Option<seq<string>>)
      ensures r == (match DiskText(View()) case None => None case Some(text) => Some(["--device", text]))
    {
      if imagePath == "" { return None; }
      var value := devName + Setting("path", imagePath);
      if backend != "" { value := value + Setting("type", backend); }
      if readOnly { value := value + Flag("readonly"); }
      assert value == devName + DiskTail(View());
      r := Some(["--device", value]);
    }
  }

  class VirtioBlk {
    const disk: DiskStorageConfig
    var deviceIdentifier: string

    function View(): BlkView
      reads this, disk
    {
      BlkView(disk.View(), deviceIdentifier)
    }

    constructor ()
      ensures View() == BlkView(FreshDisk("virtio-blk"), "") && fresh(disk)
    {
      disk := new DiskStorageConfig("virtio-blk");
      deviceIdentifier := "";
    }

    method FromOptions(options: seq<Opt>, raw: DiskOracle) returns (ok: bool)
      modifies this, disk
      ensures BlkFromOptions(old(View()), options, raw) == if ok then Some(View()) else None
    {
      ghost var start, all := View(), Fold(BlkStep, View(), options);
      BlkTwoPasses(start, options);
      var unhandledOpts: seq<Opt> := [];
      assert unhandledOpts + SetAside(IsDeviceId, options) == SetAside(IsDeviceId, options);
      assert options[0..] == options;
      for i := 0 to |options|
        invariant disk.View() == start.disk
        invariant forall o :: o in unhandledOpts ==> !IsDeviceId(o)
        invariant all == Resume(BlkStep, Fold(BlkStep, View(), Select(IsDeviceId, options[i..])),
                                unhandledOpts + SetAside(IsDeviceId, options[i..]))
      {
        var option := options[i];
        ghost var rest := options[i+1..];
        assert options[i..][1..] == rest;
        if option.key == "deviceId" {
          assert Fold(BlkStep, View(), [option] + Select(IsDeviceId, rest))
              == Fold(BlkStep, View().(deviceIdentifier := option.value), Select(IsDeviceId, rest)) by {
            assert ([option] + Select(IsDeviceId, rest))[1..] == Select(IsDeviceId, rest);
          }
          deviceIdentifier := option.value;
        } else {
          assert unhandledOpts + ([option] + SetAside(IsDeviceId, rest))
              == (unhandledOpts + [option]) + SetAside(IsDeviceId, rest);
          unhandledOpts := unhandledOpts + [option];
        }
      }
      assert unhandledOpts + [] == unhandledOpts;
      BlkReadsDisk(disk.View(), deviceIdentifier, unhandledOpts);
      var diskOk := disk.FromOptions(unhandledOpts);
      if !diskOk { return false; }
      return raw(disk.imagePath);
    }

    method ToCmdLine() returns (r: Option<seq<string>>)
      ensures r == DeviceArgs(Blk(View()))
    {
      r := disk.ToCmdLine();
      if r.None? { return; }
      var cmdLine := r.value;
      if deviceIdentifier != "" {
        cmdLine := cmdLine[1 := cmdLine[1] + Setting("deviceId", deviceIdentifier)];
      }
      Appended(DiskText(disk.View()).value, "", "", "");
      assert cmdLine == ["--device", BlkText(View()).value];
      r := Some(cmdLine);
    }
  }

  /** The part of an nbd device that names its server. */
  class NetworkBlockStorageConfig {
    const devName: string
    var readOnly: bool
    var uri: string

    function View(): NbdStorageView
      reads this
    {
      NbdStorageView(devName, readOnly, uri)
    }

    constructor (name: string)
      ensures View() == NbdStorageView(name, false, "")
    {
      devName, readOnly, uri := name, false, "";
    }

    method FromOptions(options: seq<Opt>) returns (ok: bool)
      modifies this
      ensures Fold(NbdStorageStep, old(View()), options) == if ok then Some(View()) else None
    {
      for i := 0 to |options|
        invariant Fold(NbdStorageStep, old(View()), options) == Fold(NbdStorageStep, View(), options[i..])
      {
        var option := options[i];
        assert options[i..][1..] == options[i+1..];
        match option.key
        case "uri" => uri := option.value;
        case "readonly" =>
          if option.value != "" { return false; }
          readOnly := true;
        case _ => return false;
      }
      return true;
    }

    method ToCmdLine() returns (r: Option<seq<string>>)
      ensures r == (match NbdStorageText(View()) case None => None case Some(text) => Some(["--device", text]))
    {
      if uri == "" { return None; }
      var value := devName + Setting("uri", uri);
      Appended(devName, Setting("uri", uri), Flag("readonly"), "");
      if readOnly { value := value + Flag("readonly"); }
      Appended(Setting("uri", uri), "", "", "");
      r := Some(["--device", value]);
    }
  }

  class NetworkBlockDevice {
    const storage: NetworkBlockStorageConfig
    var deviceIdentifier: string
    var timeout: Int64
    var syncMode: string

    function View(): NbdView
      reads this, storage
    {
      NbdView(storage.View(), deviceIdentifier, timeout, syncMode)
    }

    constructor ()
      ensures View() == NbdView(NbdStorageView("nbd", false, ""), "", 15_000_000_000, "full") && fresh(storage)
    {
      storage := new NetworkBlockStorageConfig("nbd");
      deviceIdentifier := "";
      timeout := 15000 * NANOS_PER_MILLI;
      syncMode := "full";
    }

    method FromOptions(options: seq<Opt>) returns (ok: bool)
      modifies this, storage
      ensures Fold(NbdStep, old(View()), options) == if ok then Some(View()) else None
    {
      ghost var start, all := View(), Fold(NbdStep, View(), options);
      NbdTwoPasses(start, options);
      var unhandledOpts: seq<Opt> := [];
      assert unhandledOpts + SetAside(IsNbdOwn, options) == SetAside(IsNbdOwn, options);
      assert options[0..] == options;
      for i := 0 to |options|
        invariant storage.View() == start.storage
        invariant forall o :: o in unhandledOpts ==> !IsNbdOwn(o)
        invariant all == Resume(NbdStep, Fold(NbdStep, View(), Select(IsNbdOwn, options[i..])),
                                unhandledOpts + SetAside(IsNbdOwn, options[i..]))
      {
        var option := options[i];
        ghost var rest := options[i+1..];
        assert options[i..][1..] == rest;
        assert ([option] + Select(IsNbdOwn, rest))[1..] == Select(IsNbdOwn, rest);
        assert unhandledOpts + ([option] + SetAside(IsNbdOwn, rest))
            == (unhandledOpts + [option]) + SetAside(IsNbdOwn, rest);
        match option.key
        case "deviceId" => deviceIdentifier := option.value;
        case "timeout" =>
          var parsed := ParseTimeout(option.value);
          if parsed.None? { return false; }
          timeout := parsed.value;
        case "sync" =>
          if option.value != "full" && option.value != "none" { return false; }
          syncMode := option.value;
        case _ => unhandledOpts := unhandledOpts + [option];
      }
      assert unhandledOpts + [] == unhandledOpts;
      NbdReadsStorage(View(), unhandledOpts);
      ok := storage.FromOptions(unhandledOpts);
    }

    method ToCmdLine() returns (r: Option<seq<string>>)
      ensures r == DeviceArgs(Nbd(View()))
    {
      r := storage.ToCmdLine();
      if r.None? { return; }
      var value := r.value[1];
      Appended(value, "", "", "");
      if deviceIdentifier != "" { value := value + Setting("deviceId", deviceIdentifier); }
      Appended(value, "", "", "");
      if Millis(timeout) > 0 { value := value + Setting("timeout", Dec(Millis(timeout))); }
      Appended(value, "", "", "");
      if syncMode == "none" || syncMode == "full" { value := value + Setting("sync", syncMode); }
      assert value == NbdText(View()).value;
      r := Some(["--device", value]);
    }
  }

  lemma {:induction false} NbdReadsStorage(d: NbdView, opts: seq<Opt>)
    requires forall o :: o in opts ==> !IsNbdOwn(o)
    ensures Fold(NbdStep, d, opts)
         == (match Fold(NbdStorageStep, d.storage, opts) case None => None case Some(s) => Some(d.(storage := s)))
    decreases |opts|
  {
    if opts != [] {
      assert !IsNbdOwn(opts[0]);
      match NbdStorageStep(d.storage, opts[0])
      case None =>
      case Some(s) => NbdReadsStorage(d.(storage := s), opts[1..]);
    }
  }

  /** deviceFromCmdLine: build a fresh device of the named kind and let it read the remaining options. */
  method BuildDevice(deviceOpts: string, raw: DiskOracle) returns (r: Option<Device>)
    ensures r == DeviceFromCmdLine(deviceOpts, raw)
  {
    var opts := Split(deviceOpts, ',');
    var kind := KindOf(opts[0]);
    if kind.None? { return None; }
    var parsedOpts := StrvToOptions(opts[1..]);
    var ok;
    match kind.value
    case KRosetta =>
      var dev := new RosettaShare();
      ok := dev.FromOptions(parsedOpts);
      r := if ok then Some(Rosetta(dev.View())) else None;
    case KNvme =>
      var dev := new DiskStorageConfig("nvme");
      ok := dev.FromOptions(parsedOpts);
      r := if ok then Some(Nvme(dev.View())) else None;
    case KBlk =>
      var dev := new VirtioBlk();
      ok := dev.FromOptions(parsedOpts, raw);
      r := if ok then Some(Blk(dev.View())) else None;
    case KFs =>
      var dev := new VirtioFs();
      ok := dev.FromOptions(parsedOpts);
      r := if ok then Some(Fs(dev.View())) else None;
    case KNet =>
      var dev := new VirtioNet();
      ok := dev.FromOptions(parsedOpts);
      r := if ok then Some(Net(dev.View())) else None;
    case KRng =>
      r := if |parsedOpts| != 0 then None else Some(Rng);
    case KSerial =>
      var dev := new VirtioSerial();
      ok := dev.FromOptions(parsedOpts);
      r := if ok then Some(Serial(dev.View())) else None;
    case KVsock =>
      var dev := new VirtioVsock();
      ok := dev.FromOptions(parsedOpts);
      r := if ok then Some(Vsock(dev.View())) else None;
    case KUsb =>
      var dev := new DiskStorageConfig("usb-mass-storage");
      ok := dev.FromOptions(parsedOpts);
      r := if ok then Some(Usb(dev.View())) else None;
    case KInput =>
      var dev := new VirtioInput();
      ok := dev.FromOptions(parsedOpts);
      r := if ok then Some(Input(dev.View())) else None;
    case KGpu =>
      var dev := new VirtioGPU();
      ok := dev.FromOptions(parsedOpts);
      r := if ok then Some(Gpu(dev.View())) else None;
    case KBalloon =>
      r := if |parsedOpts| != 0 then None else Some(Balloon);
    case KNbd =>
      var dev := new NetworkBlockDevice();
      ok := dev.FromOptions(parsedOpts);
      r := if ok then Some(Nbd(dev.View())) else None;
  }
}
