/** The flag table, the rebuilding of a virtual machine from its flags, and the whole round trip. */
module CommandLine {
  import opened Text
  import opened Options
  import opened Devices
  import opened StringSlice
  import opened Bootloaders
  import opened Config

  datatype CmdOptions = CmdOptions(
    vcpus: Uint64,
    memoryMiB: Uint64,
    vmlinuzPath: string,
    kernelCmdline: string,
    initrdPath: string,
    bootloader: FlagValue,
    timeSync: string,
    devices: seq<string>,
    restfulURI: string,
    logLevel: string,
    useGUI: bool,
    ignitionPath: string,
    cloudInitFiles: FlagValue,
    isNested: bool,
    pidFile: string,
    changed: set<string>)

  const DEFAULTS := CmdOptions(1, 512, "", "", "", FlagValue([], false), "", [], "none://", "", false, "",
                               FlagValue([], false), false, "", {})

  /** A number flag: out of range or malformed text is refused. */
  function UintFlag(value: string): Option<Uint64> {
    match ParseUint(value, TWO_TO_THE_64 - 1)
    case None => None
    case Some(n) => if n < TWO_TO_THE_64 then Some(n) else None
  }

  /** What one value flag writes. */
  function AssignFlag(o: CmdOptions, name: string, value: string): Option<CmdOptions> {
    match name
    case "--kernel" => Some(o.(vmlinuzPath := value))
    case "--kernel-cmdline" => Some(o.(kernelCmdline := value))
    case "--initrd" => Some(o.(initrdPath := value))
    case "--bootloader" =>
      if ParseString(value).Some? then Some(o.(bootloader := SetValue(o.bootloader, value))) else None
    case "--cpus" => (
      match UintFlag(value)
      case None => None
      case Some(n) => Some(o.(vcpus := n)))
    case "--memory" => (
      match UintFlag(value)
      case None => None
      case Some(n) => Some(o.(memoryMiB := n)))
    case "--timesync" => Some(o.(timeSync := value))
    case "--device" => Some(o.(devices := o.devices + [value]))
    case "--log-level" => Some(o.(logLevel := value))
    case "--restful-uri" => Some(o.(restfulURI := value))
    case "--ignition" => Some(o.(ignitionPath := value))
    case "--cloud-init" =>
      if ParseString(value).Some? then Some(o.(cloudInitFiles := SetValue(o.cloudInitFiles, value))) else None
    case "--pidfile" => Some(o.(pidFile := value))
    case _ => None
  }

  function SetFlag(o: CmdOptions, name: string, value: string): Option<CmdOptions> {
    match AssignFlag(o, name, value)
    case None => None
    case Some(p) => Some(p.(changed := o.changed + {name}))
  }

  /** Boolean flags take no value; any other flag takes the next argument, whatever it looks like. */
  function ReadArgs(o: CmdOptions, args: seq<string>): Option<CmdOptions>
    decreases |args|
  {
    if args == [] then Some(o)
    else if args[0] == "--nested" then ReadArgs(o.(isNested := true, changed := o.changed + {args[0]}), args[1..])
    else if args[0] == "--gui" then ReadArgs(o.(useGUI := true, changed := o.changed + {args[0]}), args[1..])
    else if |args| == 1 then None
    else
      match SetFlag(o, args[0], args[1])
      case None => None
      case Some(p) => ReadArgs(p, args[2..])
  }

  const LEGACY_FLAGS := {"--kernel", "--initrd", "--kernel-cmdline"}

  /** No legacy flag next to --bootloader, and the legacy flags all together or not at all. */
  predicate FlagGroupsValid(changed: set<string>) {
    && !("--bootloader" in changed && LEGACY_FLAGS * changed != {})
    && (LEGACY_FLAGS * changed == {} || LEGACY_FLAGS <= changed)
  }

  // ---------- Rebuilding ----------

  /** What lies outside: disk images, the host's abilities, the cloud-init image and the pid file. */
  datatype Env = Env(
    raw: DiskOracle, nestedSupported: bool, cloudInit: seq<string> -> Option<string>,
    pidFileOk: string -> bool)

  function LegacyBootloader(o: CmdOptions): Option<Bootloader> {
    if o.vmlinuzPath == "" && o.kernelCmdline == "" && o.initrdPath == "" then None
    else Some(Linux(LinuxView(o.vmlinuzPath, o.kernelCmdline, o.initrdPath)))
  }

  function ChosenBootloader(o: CmdOptions): Option<Bootloader> {
    if LegacyBootloader(o).Some? then LegacyBootloader(o) else FromStrv(o.bootloader.value)
  }

  function CloudInitImage(files: seq<string>, env: Env): Option<string> {
    if files == [] then Some("") else env.cloudInit(files)
  }

  function DeviceTexts(o: CmdOptions, iso: string): seq<string> {
    if iso != "" then o.devices + ["virtio-blk" + Setting("path", iso)] else o.devices
  }

  predicate IsGpu(d: Device) { d.Gpu? }
  predicate IsInput(d: Device) { d.Input? }

  const GUI_GPU := Gpu(GpuView(true, DEFAULT_WIDTH, DEFAULT_HEIGHT))
  const GUI_KEYBOARD := Input(InputView("keyboard"))

  /** --gui adds a display and a keyboard where the configuration has none. */
  function WithGui(devices: seq<Device>): seq<Device> {
    var withGpu := if Select(IsGpu, devices) == [] then devices + [GUI_GPU] else devices;
    if Select(IsInput, withGpu) == [] then withGpu + [GUI_KEYBOARD] else withGpu
  }

  function TimeSyncOf(text: string): Option<Option<TimeSync>> {
    if text == "" then Some(None)
    else if TimeSyncFromText(text).Some? then Some(TimeSyncFromText(text)) else None
  }

  function Rebuilt(o: CmdOptions, env: Env): Option<VM> {
    var boot := ChosenBootloader(o);
    var iso := CloudInitImage(o.cloudInitFiles.value, env);
    if boot.None? || (o.isNested && !env.nestedSupported) || TimeSyncOf(o.timeSync).None? || iso.None? then None
    else if o.pidFile != "" && !env.pidFileOk(o.pidFile) then None
    else
      var texts := DeviceTexts(o, iso.value);
      var devices := ReadDevices(texts, env.raw);
      if |devices| != |texts| || IgnitionFromText(o.ignitionPath).None? then None
      else
        Some(VM(o.vcpus, MiBToBytes(o.memoryMiB), boot, if o.useGUI then WithGui(devices) else devices,
                TimeSyncOf(o.timeSync).value, IgnitionFromText(o.ignitionPath).value, o.isNested))
  }

  method NewBootloader(o: CmdOptions) returns (boot: Option<Bootloader>)
    ensures boot == ChosenBootloader(o)
  {
    boot := LegacyBootloader(o);
    if boot.None? { boot := Build(o.bootloader.value); }
  }

  method AddGuiDevices(vm: VirtualMachine)
    modifies vm`devices
    ensures vm.View() == old(vm.View()).(devices := WithGui(old(vm.devices)))
  {
    var gpus := vm.FilterDevices(IsGpu);
    if |gpus| == 0 { vm.AddDevices([GUI_GPU]); }
    var inputs := vm.FilterDevices(IsInput);
    if |inputs| == 0 { vm.AddDevices([GUI_KEYBOARD]); }
  }

  method NewVMConfiguration(o: CmdOptions, env: Env) returns (r: Option<VM>)
    ensures r == Rebuilt(o, env)
  {
    var boot := NewBootloader(o);
    if boot.None? { return None; }
    var vm := new VirtualMachine(o.vcpus, o.memoryMiB, boot);
    if o.isNested && !env.nestedSupported { return None; }
    vm.nested := o.isNested;
    var timeSyncOk := vm.AddTimeSyncFromCmdLine(o.timeSync);
    if !timeSyncOk { return None; }
    ghost var start := VM(o.vcpus, MiBToBytes(o.memoryMiB), boot, [], TimeSyncOf(o.timeSync).value, None, o.isNested);
    assert vm.View() == start;
    var iso := CloudInitImage(o.cloudInitFiles.value, env);
    if iso.None? { return None; }
    var texts := o.devices;
    if iso.value != "" { texts := texts + ["virtio-blk" + Setting("path", iso.value)]; }
    if o.pidFile != "" && !env.pidFileOk(o.pidFile) { return None; }
    var devicesOk := vm.AddDevicesFromCmdLine(texts, env.raw);
    if !devicesOk { return None; }
    assert [] + ReadDevices(texts, env.raw) == ReadDevices(texts, env.raw);
    assert vm.View() == start.(devices := ReadDevices(texts, env.raw));
    if o.useGUI { AddGuiDevices(vm); }
    var ignitionOk := vm.AddIgnitionFileFromCmdLine(o.ignitionPath);
    if !ignitionOk { return None; }
    r := Some(vm.View());
  }

  /** vfkit started with these arguments. */
  function Started(args: seq<string>, env: Env): Option<VM> {
    match ReadArgs(DEFAULTS, args)
    case None => None
    case Some(o) => if FlagGroupsValid(o.changed) then Rebuilt(o, env) else None
  }
}
