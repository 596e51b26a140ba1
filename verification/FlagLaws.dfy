/** What each flag does to the machine that a command line describes, whatever flags come before it. */
module FlagLaws {
  import opened Text
  import opened Options
  import opened Devices
  import opened DeviceRoundTrip
  import opened StringSlice
  import opened Bootloaders
  import opened Config
  import opened CommandLine
  import VmRoundTrip

  // ---------- One more flag ----------

  lemma {:induction false} ReadAppended(o: CmdOptions, args: seq<string>, more: seq<string>)
    requires ReadArgs(o, args).Some?
    ensures ReadArgs(o, args + more) == ReadArgs(ReadArgs(o, args).value, more)
    decreases |args|
  {
    if args == [] {
      assert args + more == more;
    } else if args[0] == "--nested" || args[0] == "--gui" {
      assert (args + more)[1..] == args[1..] + more;
      ReadAppended(if args[0] == "--nested" then o.(isNested := true, changed := o.changed + {args[0]})
                   else o.(useGUI := true, changed := o.changed + {args[0]}), args[1..], more);
    } else {
      assert (args + more)[2..] == args[2..] + more;
      ReadAppended(SetFlag(o, args[0], args[1]).value, args[2..], more);
    }
  }

  /** The options a command line reads to. */
  predicate Reads(args: seq<string>, o: CmdOptions) { ReadArgs(DEFAULTS, args) == Some(o) }

  lemma OneFlag(args: seq<string>, o: CmdOptions, name: string, value: string)
    requires Reads(args, o) && name != "--nested" && name != "--gui"
    ensures ReadArgs(DEFAULTS, args + [name, value]) == SetFlag(o, name, value)
  {
    ReadAppended(DEFAULTS, args, [name, value]);
    assert [name, value][2..] == [];
    if SetFlag(o, name, value).Some? {
      assert ReadArgs(SetFlag(o, name, value).value, []) == SetFlag(o, name, value);
    }
  }

  /** A flag outside the two groups leaves them valid. */
  lemma OtherFlagKeepsGroups(changed: set<string>, name: string)
    requires name != "--bootloader" && name !in LEGACY_FLAGS
    ensures FlagGroupsValid(changed + {name}) <==> FlagGroupsValid(changed)
  {
    assert LEGACY_FLAGS * (changed + {name}) == LEGACY_FLAGS * changed;
  }

  lemma StartedWith(args: seq<string>, o: CmdOptions, name: string, value: string, env: Env)
    requires Reads(args, o) && FlagGroupsValid(o.changed)
    requires name != "--nested" && name != "--gui" && name != "--bootloader" && name !in LEGACY_FLAGS
    ensures Started(args + [name, value], env)
         == match AssignFlag(o, name, value) case None => None case Some(p) => Rebuilt(p, env)
  {
    OneFlag(args, o, name, value);
    OtherFlagKeepsGroups(o.changed, name);
    if AssignFlag(o, name, value).Some? {
      var p := AssignFlag(o, name, value).value;
      SameButChanged(p, p.(changed := o.changed + {name}), env);
    }
  }

  /** The flag names are only for the group rules. */
  lemma SameButChanged(p: CmdOptions, q: CmdOptions, env: Env)
    requires q == p.(changed := q.changed)
    ensures Rebuilt(p, env) == Rebuilt(q, env)
  {
  }

  /** An accepted command line, with its options and the machine it describes. */
  ghost predicate Accepted(args: seq<string>, env: Env, o: CmdOptions, vm: VM) {
    Reads(args, o) && FlagGroupsValid(o.changed) && Started(args, env) == Some(vm) && Rebuilt(o, env) == Some(vm)
  }

  lemma AcceptedLine(args: seq<string>, env: Env, vm: VM) returns (o: CmdOptions)
    requires Started(args, env) == Some(vm)
    ensures Accepted(args, env, o, vm)
  {
    o := ReadArgs(DEFAULTS, args).value;
  }

  /** The same with what the flag writes: enough to know what is rebuilt from it. */
  lemma StartedAs(args: seq<string>, o: CmdOptions, name: string, value: string, env: Env, p: CmdOptions)
    requires Reads(args, o) && FlagGroupsValid(o.changed)
    requires name != "--nested" && name != "--gui" && name != "--bootloader" && name !in LEGACY_FLAGS
    requires AssignFlag(o, name, value) == Some(p)
    ensures Started(args + [name, value], env) == Rebuilt(p, env)
  {
    StartedWith(args, o, name, value, env);
  }

  lemma Assigned(o: CmdOptions, value: string)
    ensures AssignFlag(o, "--timesync", value) == Some(o.(timeSync := value))
    ensures AssignFlag(o, "--pidfile", value) == Some(o.(pidFile := value))
    ensures AssignFlag(o, "--ignition", value) == Some(o.(ignitionPath := value))
    ensures AssignFlag(o, "--log-level", value) == Some(o.(logLevel := value))
    ensures AssignFlag(o, "--restful-uri", value) == Some(o.(restfulURI := value))
    ensures AssignFlag(o, "--device", value) == Some(o.(devices := o.devices + [value]))
  {
  }

  // ---------- --timesync, --pidfile and --ignition ----------

  function Timed(vm: VM, text: string): Option<VM> {
    if text == "" then Some(vm.(timesync := None))
    else
      match TimeSyncFromText(text)
      case None => None
      case Some(t) => Some(vm.(timesync := Some(t)))
  }

  lemma RebuiltTimed(o: CmdOptions, text: string, env: Env, vm: VM)
    requires Rebuilt(o, env) == Some(vm)
    ensures Rebuilt(o.(timeSync := text), env) == Timed(vm, text)
  {
  }

  lemma TimeSyncFlag(args: seq<string>, text: string, env: Env, vm: VM)
    requires Started(args, env) == Some(vm)
    ensures Started(args + ["--timesync", text], env) == Timed(vm, text)
  {
    var o := AcceptedLine(args, env, vm);
    Assigned(o, text);
    RebuiltTimed(o, text, env, vm);
    StartedAs(args, o, "--timesync", text, env, o.(timeSync := text));
  }

  /** A printed time synchronisation is set on the machine exactly when it has a port. */
  lemma PrintedTimeSyncFlag(args: seq<string>, t: TimeSync, env: Env, vm: VM)
    requires Started(args, env) == Some(vm)
    ensures Started(args + ["--timesync", TimeSyncText(t)], env) == Some(vm.(timesync := Some(t)))
       <==> t.vsockPort != 0
  {
    TimeSyncFlag(args, TimeSyncText(t), env, vm);
    TimeSyncRoundTrips(t);
  }

  lemma RebuiltPidFile(o: CmdOptions, path: string, env: Env, vm: VM)
    requires Rebuilt(o, env) == Some(vm)
    ensures Rebuilt(o.(pidFile := path), env) == if path == "" || env.pidFileOk(path) then Some(vm) else None
  {
  }

  lemma PidFileFlag(args: seq<string>, path: string, env: Env, vm: VM)
    requires Started(args, env) == Some(vm)
    ensures Started(args + ["--pidfile", path], env) == if path == "" || env.pidFileOk(path) then Some(vm) else None
  {
    var o := AcceptedLine(args, env, vm);
    Assigned(o, path);
    RebuiltPidFile(o, path, env, vm);
    StartedAs(args, o, "--pidfile", path, env, o.(pidFile := path));
  }

  function Ignited(vm: VM, path: string): Option<VM> {
    if path == "" then Some(vm.(ignition := None))
    else if ',' in path then None
    else Some(vm.(ignition := Some(Ignition(path, "", 1024))))
  }

  lemma RebuiltIgnited(o: CmdOptions, path: string, env: Env, vm: VM)
    requires Rebuilt(o, env) == Some(vm)
    ensures Rebuilt(o.(ignitionPath := path), env) == Ignited(vm, path)
  {
    IgnitionReads(path);
  }

  lemma IgnitionFlag(args: seq<string>, path: string, env: Env, vm: VM)
    requires Started(args, env) == Some(vm)
    ensures Started(args + ["--ignition", path], env) == Ignited(vm, path)
  {
    var o := AcceptedLine(args, env, vm);
    Assigned(o, path);
    RebuiltIgnited(o, path, env, vm);
    StartedAs(args, o, "--ignition", path, env, o.(ignitionPath := path));
  }

  // ---------- --cpus, --memory, --nested and flags for other parts of vfkit ----------

  /** What a number flag makes of its text: digits below 2^64, or a refusal. */
  lemma NumberFlag(o: CmdOptions, value: string)
    ensures UintFlag(value) == ParseUint(value, 0xFFFF_FFFF_FFFF_FFFF)
    ensures AssignFlag(o, "--cpus", value)
         == match UintFlag(value) case None => None case Some(n) => Some(o.(vcpus := n))
    ensures AssignFlag(o, "--memory", value)
         == match UintFlag(value) case None => None case Some(n) => Some(o.(memoryMiB := n))
  {
  }

  lemma RebuiltSizes(o: CmdOptions, n: Uint64, env: Env, vm: VM)
    requires Rebuilt(o, env) == Some(vm)
    ensures Rebuilt(o.(vcpus := n), env) == Some(vm.(vcpus := n))
    ensures Rebuilt(o.(memoryMiB := n), env) == Some(vm.(memory := (n * 1_048_576) % 0x1_0000_0000_0000_0000))
  {
  }

  lemma CpusFlag(args: seq<string>, value: string, env: Env, vm: VM)
    requires Started(args, env) == Some(vm)
    ensures Started(args + ["--cpus", value], env)
         == match ParseUint(value, 0xFFFF_FFFF_FFFF_FFFF) case None => None case Some(n) => Some(vm.(vcpus := n))
  {
    var o := AcceptedLine(args, env, vm);
    NumberFlag(o, value);
    StartedWith(args, o, "--cpus", value, env);
    if UintFlag(value).Some? { RebuiltSizes(o, UintFlag(value).value, env, vm); }
  }

  lemma MemoryFlag(args: seq<string>, value: string, env: Env, vm: VM)
    requires Started(args, env) == Some(vm)
    ensures Started(args + ["--memory", value], env)
         == match ParseUint(value, 0xFFFF_FFFF_FFFF_FFFF)
            case None => None
            case Some(n) => Some(vm.(memory := (n * 1_048_576) % 0x1_0000_0000_0000_0000))
  {
    var o := AcceptedLine(args, env, vm);
    NumberFlag(o, value);
    StartedWith(args, o, "--memory", value, env);
    if UintFlag(value).Some? { RebuiltSizes(o, UintFlag(value).value, env, vm); }
  }

  lemma NestedFlag(args: seq<string>, env: Env, vm: VM)
    requires Started(args, env) == Some(vm)
    ensures Started(args + ["--nested"], env) == if env.nestedSupported then Some(vm.(nested := true)) else None
  {
    var o := AcceptedLine(args, env, vm);
    ReadAppended(DEFAULTS, args, ["--nested"]);
    OtherFlagKeepsGroups(o.changed, "--nested");
    var p := o.(isNested := true, changed := o.changed + {"--nested"});
    assert ReadArgs(o, ["--nested"]) == ReadArgs(p, []);
  }

  lemma RebuiltForOthers(o: CmdOptions, value: string, env: Env)
    ensures Rebuilt(o.(logLevel := value), env) == Rebuilt(o, env) == Rebuilt(o.(restfulURI := value), env)
  {
  }

  lemma FlagForOthers(args: seq<string>, name: string, value: string, env: Env, vm: VM)
    requires Started(args, env) == Some(vm) && (name == "--log-level" || name == "--restful-uri")
    ensures Started(args + [name, value], env) == Some(vm)
  {
    var o := AcceptedLine(args, env, vm);
    Assigned(o, value);
    RebuiltForOthers(o, value, env);
    StartedAs(args, o, name, value, env,
              if name == "--log-level" then o.(logLevel := value) else o.(restfulURI := value));
  }

  // ---------- Refusals ----------

  lemma UnknownFlag(args: seq<string>, name: string, value: string, env: Env, vm: VM)
    requires Started(args, env) == Some(vm)
    requires name !in {"--kernel", "--kernel-cmdline", "--initrd", "--bootloader", "--gui", "--cpus", "--memory",
                       "--timesync", "--device", "--log-level", "--restful-uri", "--ignition", "--cloud-init",
                       "--nested", "--pidfile"}
    ensures Started(args + [name, value], env).None?
  {
    var o := AcceptedLine(args, env, vm);
    OneFlag(args, o, name, value);
  }

  lemma MissingValue(args: seq<string>, name: string, env: Env, vm: VM)
    requires Started(args, env) == Some(vm) && name != "--gui" && name != "--nested"
    ensures Started(args + [name], env).None?
  {
    ReadAppended(DEFAULTS, args, [name]);
  }

  // ---------- --gui ----------

  /** A display and a keyboard, behind the devices, where there is none. */
  function Completed(devices: seq<Device>): seq<Device> {
    var display := exists d :: d in devices && d.Gpu?;
    var input := exists d :: d in devices && d.Input?;
    devices + (if display then [] else [Gpu(GpuView(true, 800, 600))])
    + (if input then [] else [Input(InputView("keyboard"))])
  }

  lemma {:induction false} SelectedExists<T>(keep: T -> bool, items: seq<T>)
    ensures Select(keep, items) != [] <==> exists x :: x in items && keep(x)
  {
    if items != [] {
      SelectedExists(keep, items[1..]);
      assert forall x :: x in items <==> x == items[0] || x in items[1..];
    }
  }

  lemma GuiCompletes(devices: seq<Device>)
    ensures WithGui(devices) == Completed(devices)
  {
    var withGpu := if Select(IsGpu, devices) == [] then devices + [GUI_GPU] else devices;
    SelectedExists(IsGpu, devices);
    SelectedExists(IsInput, devices);
    SelectedExists(IsInput, withGpu);
    assert (exists d :: d in withGpu && IsInput(d)) <==> exists d :: d in devices && IsInput(d);
  }

  lemma RebuiltGui(o: CmdOptions, env: Env, vm: VM)
    requires Rebuilt(o, env) == Some(vm)
    ensures Rebuilt(o.(useGUI := true), env) == Some(vm.(devices := WithGui(vm.devices)))
  {
    VmRoundTrip.GuiCompletes(DevicesBefore(o, env));
    assert vm.devices == if o.useGUI then WithGui(DevicesBefore(o, env)) else DevicesBefore(o, env);
  }

  function DevicesBefore(o: CmdOptions, env: Env): seq<Device> {
    ReadDevices(DeviceTexts(o, CloudInitImage(o.cloudInitFiles.value, env).GetOr("")), env.raw)
  }

  lemma GuiFlag(args: seq<string>, env: Env, vm: VM)
    requires Started(args, env) == Some(vm)
    ensures Started(args + ["--gui"], env) == Some(vm.(devices := Completed(vm.devices)))
  {
    var o := AcceptedLine(args, env, vm);
    ReadAppended(DEFAULTS, args, ["--gui"]);
    OtherFlagKeepsGroups(o.changed, "--gui");
    var p := o.(useGUI := true, changed := o.changed + {"--gui"});
    assert ReadArgs(o, ["--gui"]) == ReadArgs(p, []);
    SameButChanged(o.(useGUI := true), p, env);
    RebuiltGui(o, env, vm);
    GuiCompletes(vm.devices);
  }

  function Shown(o: CmdOptions): CmdOptions { o.(useGUI := true, changed := o.changed + {"--gui"}) }

  function ShownIf(r: Option<CmdOptions>): Option<CmdOptions> { if r.None? then None else Some(Shown(r.value)) }

  lemma AssignShown(o: CmdOptions, name: string, value: string)
    ensures AssignFlag(Shown(o), name, value) == ShownIf(AssignFlag(o, name, value))
  {
    match name
    case "--kernel" =>
    case "--kernel-cmdline" =>
    case "--initrd" =>
    case "--bootloader" =>
    case "--cpus" =>
    case "--memory" =>
    case "--timesync" =>
    case "--device" =>
    case "--log-level" =>
    case "--restful-uri" =>
    case "--ignition" =>
    case "--cloud-init" =>
    case "--pidfile" =>
    case _ =>
  }

  lemma SetShown(o: CmdOptions, name: string, value: string)
    ensures SetFlag(Shown(o), name, value) == ShownIf(SetFlag(o, name, value))
  {
    AssignShown(o, name, value);
    assert (o.changed + {"--gui"}) + {name} == (o.changed + {name}) + {"--gui"};
  }

  lemma {:induction false} ReadShown(o: CmdOptions, args: seq<string>)
    ensures ReadArgs(Shown(o), args) == ShownIf(ReadArgs(o, args))
    decreases |args|
  {
    if args != [] {
      if args[0] == "--nested" {
        var p := o.(isNested := true, changed := o.changed + {args[0]});
        assert (o.changed + {"--gui"}) + {args[0]} == (o.changed + {args[0]}) + {"--gui"};
        ReadShown(p, args[1..]);
      } else if args[0] == "--gui" {
        var p := o.(useGUI := true, changed := o.changed + {args[0]});
        assert (o.changed + {"--gui"}) + {args[0]} == (o.changed + {args[0]}) + {"--gui"};
        ReadShown(p, args[1..]);
      } else if |args| > 1 {
        SetShown(o, args[0], args[1]);
        if SetFlag(o, args[0], args[1]).Some? { ReadShown(SetFlag(o, args[0], args[1]).value, args[2..]); }
      }
    }
  }

  /** It makes no difference where --gui stands. */
  lemma GuiAnywhere(args: seq<string>, more: seq<string>, env: Env)
    requires ReadArgs(DEFAULTS, args).Some? && ReadArgs(DEFAULTS, args + more).Some?
    ensures Started(args + ["--gui"] + more, env) == Started(args + more + ["--gui"], env)
  {
    var o := ReadArgs(DEFAULTS, args).value;
    var p := ReadArgs(DEFAULTS, args + more).value;
    ReadAppended(DEFAULTS, args, more);
    ReadAppended(DEFAULTS, args, ["--gui"]);
    assert ReadArgs(o, ["--gui"]) == ReadArgs(Shown(o), []);
    ReadAppended(DEFAULTS, args + ["--gui"], more);
    ReadShown(o, more);
    ReadAppended(DEFAULTS, args + more, ["--gui"]);
    assert ReadArgs(p, ["--gui"]) == ReadArgs(Shown(p), []);
  }

  // ---------- --device and --cloud-init ----------

  lemma {:induction false} ReadOneMore(texts: seq<string>, text: string, raw: DiskOracle)
    requires |ReadDevices(texts, raw)| == |texts|
    ensures ReadDevices(texts + [text], raw)
         == match DeviceFromCmdLine(text, raw)
            case None => ReadDevices(texts, raw)
            case Some(d) => ReadDevices(texts, raw) + [d]
  {
    if texts == [] {
      assert texts + [text] == [text] && [text][1..] == [];
    } else {
      assert (texts + [text])[1..] == texts[1..] + [text];
      ReadOneMore(texts[1..], text, raw);
    }
  }

  function WithDevice(vm: VM, text: string, raw: DiskOracle): Option<VM> {
    match DeviceFromCmdLine(text, raw)
    case None => None
    case Some(d) => Some(vm.(devices := vm.devices + [d]))
  }

  lemma RebuiltWithDevice(o: CmdOptions, text: string, env: Env, vm: VM)
    requires Rebuilt(o, env) == Some(vm) && o.cloudInitFiles.value == [] && !o.useGUI
    ensures Rebuilt(o.(devices := o.devices + [text]), env) == WithDevice(vm, text, env.raw)
  {
    ReadOneMore(o.devices, text, env.raw);
  }

  /** A device goes behind the others; --cloud-init and --gui put theirs behind all of them. */
  lemma DeviceFlag(args: seq<string>, text: string, env: Env, vm: VM)
    requires Started(args, env) == Some(vm)
    requires ReadArgs(DEFAULTS, args).value.cloudInitFiles.value == [] && !ReadArgs(DEFAULTS, args).value.useGUI
    ensures Started(args + ["--device", text], env) == WithDevice(vm, text, env.raw)
  {
    var o := AcceptedLine(args, env, vm);
    Assigned(o, text);
    RebuiltWithDevice(o, text, env, vm);
    StartedAs(args, o, "--device", text, env, o.(devices := o.devices + [text]));
  }

  /** The image becomes one more virtio-blk device; a path with a comma in it would be cut into options. */
  lemma ImageDevice(iso: string, raw: DiskOracle)
    requires ',' !in iso
    ensures DeviceFromCmdLine("virtio-blk" + Setting("path", iso), raw)
         == if raw(iso) then Some(Blk(BlkView(DiskView("virtio-blk", false, iso, ""), ""))) else None
  {
    var start := BlkView(FreshDisk("virtio-blk"), "");
    ReadDevice(KBlk, Setting("path", iso), raw);
    ReadFirst(BlkStep, start, "path", iso);
  }

  /** What --cloud-init adds when no cloud-init file was listed before: nothing if it lists none, nothing if no image
      comes out, and else a disk. */
  function WithImage(vm: VM, files: seq<string>, env: Env): Option<VM> {
    if files == [] then Some(vm)
    else
      match env.cloudInit(files)
      case None => None
      case Some(iso) => if iso == "" then Some(vm) else WithDevice(vm, "virtio-blk" + Setting("path", iso), env.raw)
  }

  lemma RebuiltWithImage(o: CmdOptions, files: seq<string>, env: Env, vm: VM)
    requires Rebuilt(o, env) == Some(vm) && o.cloudInitFiles.value == [] && !o.useGUI
    ensures Rebuilt(o.(cloudInitFiles := FlagValue(files, true)), env) == WithImage(vm, files, env)
  {
    if files != [] && env.cloudInit(files).Some? {
      var iso := env.cloudInit(files).value;
      ReadOneMore(o.devices, "virtio-blk" + Setting("path", iso), env.raw);
    }
  }

  lemma CloudInitAssigned(o: CmdOptions, text: string)
    requires o.cloudInitFiles.value == []
    ensures AssignFlag(o, "--cloud-init", text)
         == match ParseString(text)
            case None => None
            case Some(files) => Some(o.(cloudInitFiles := FlagValue(files, true)))
  {
    if ParseString(text).Some? { assert [] + ParseString(text).value == ParseString(text).value; }
  }

  lemma CloudInitFlag(args: seq<string>, text: string, env: Env, vm: VM)
    requires Started(args, env) == Some(vm)
    requires ReadArgs(DEFAULTS, args).value.cloudInitFiles.value == [] && !ReadArgs(DEFAULTS, args).value.useGUI
    ensures Started(args + ["--cloud-init", text], env)
         == match ParseString(text) case None => None case Some(files) => WithImage(vm, files, env)
  {
    var o := AcceptedLine(args, env, vm);
    CloudInitAssigned(o, text);
    StartedWith(args, o, "--cloud-init", text, env);
    if ParseString(text).Some? { RebuiltWithImage(o, ParseString(text).value, env, vm); }
  }

  // ---------- Bootloaders and defaults ----------

  /** A machine with one processor, 512 MiB and nothing else. */
  function Plainest(boot: Option<Bootloader>): Option<VM> {
    if boot.None? then None else Some(VM(1, 536_870_912, boot, [], None, None, false))
  }

  lemma RebuiltPlainest(o: CmdOptions, env: Env)
    requires o == DEFAULTS.(vmlinuzPath := o.vmlinuzPath, kernelCmdline := o.kernelCmdline, initrdPath := o.initrdPath,
                            bootloader := o.bootloader, changed := o.changed)
    ensures Rebuilt(o, env) == Plainest(ChosenBootloader(o))
  {
  }

  /** The three legacy flags describe a Linux bootloader unless all three are empty. */
  lemma LegacyFlags(kernel: string, initrd: string, cmdline: string, env: Env)
    ensures Started(["--kernel", kernel, "--initrd", initrd, "--kernel-cmdline", cmdline], env)
         == if kernel == "" && initrd == "" && cmdline == "" then None
            else Plainest(Some(Linux(LinuxView(kernel, cmdline, initrd))))
  {
    var a, b, c := ["--kernel", kernel], ["--initrd", initrd], ["--kernel-cmdline", cmdline];
    var o := DEFAULTS.(vmlinuzPath := kernel, changed := DEFAULTS.changed + {"--kernel"});
    var p := o.(initrdPath := initrd, changed := o.changed + {"--initrd"});
    var q := p.(kernelCmdline := cmdline, changed := p.changed + {"--kernel-cmdline"});
    OneFlag([], DEFAULTS, "--kernel", kernel);
    OneFlag(a, o, "--initrd", initrd);
    OneFlag(a + b, p, "--kernel-cmdline", cmdline);
    assert [] + a == a && a + b + c == ["--kernel", kernel, "--initrd", initrd, "--kernel-cmdline", cmdline];
    RebuiltPlainest(q, env);
  }

  lemma BootloaderFlag(text: string, env: Env)
    ensures Started(["--bootloader", text], env) == Plainest(FromText(text))
  {
    OneFlag([], DEFAULTS, "--bootloader", text);
    assert [] + ["--bootloader", text] == ["--bootloader", text];
    if ParseString(text).Some? {
      var boot := SetValue(FlagValue([], false), text);
      var o := DEFAULTS.(bootloader := boot, changed := DEFAULTS.changed + {"--bootloader"});
      RebuiltPlainest(o, env);
    }
  }

  // ---------- Flag groups ----------

  /** The names at which a flag is read. */
  function FlagNames(args: seq<string>): set<string>
    decreases |args|
  {
    if args == [] then {}
    else if args[0] == "--nested" || args[0] == "--gui" then {args[0]} + FlagNames(args[1..])
    else if |args| == 1 then {}
    else {args[0]} + FlagNames(args[2..])
  }

  lemma {:induction false} ChangedNames(o: CmdOptions, args: seq<string>)
    requires ReadArgs(o, args).Some?
    ensures ReadArgs(o, args).value.changed == o.changed + FlagNames(args)
    decreases |args|
  {
    if args != [] {
      if args[0] == "--nested" {
        ChangedNames(o.(isNested := true, changed := o.changed + {args[0]}), args[1..]);
      } else if args[0] == "--gui" {
        ChangedNames(o.(useGUI := true, changed := o.changed + {args[0]}), args[1..]);
      } else {
        ChangedNames(SetFlag(o, args[0], args[1]).value, args[2..]);
      }
    }
  }

  /** No legacy flag beside --bootloader, and all legacy flags or none. */
  predicate Grouped(names: set<string>) {
    && ("--bootloader" in names ==> "--kernel" !in names && "--initrd" !in names && "--kernel-cmdline" !in names)
    && ("--kernel" in names <==> "--initrd" in names)
    && ("--kernel" in names <==> "--kernel-cmdline" in names)
  }

  lemma GroupsMeaning(names: set<string>)
    ensures FlagGroupsValid(names) <==> Grouped(names)
  {
    assert "--kernel" in LEGACY_FLAGS * names <==> "--kernel" in names;
    assert "--initrd" in LEGACY_FLAGS * names <==> "--initrd" in names;
    assert "--kernel-cmdline" in LEGACY_FLAGS * names <==> "--kernel-cmdline" in names;
    if "--kernel" !in names && "--initrd" !in names && "--kernel-cmdline" !in names {
      assert LEGACY_FLAGS * names == {};
    }
  }

  /** A command line that breaks a group rule is refused; one that keeps them is decided by its options. */
  lemma GroupRules(args: seq<string>, env: Env)
    requires ReadArgs(DEFAULTS, args).Some?
    ensures Started(args, env)
         == if Grouped(FlagNames(args)) then Rebuilt(ReadArgs(DEFAULTS, args).value, env) else None
  {
    ChangedNames(DEFAULTS, args);
    assert {} + FlagNames(args) == FlagNames(args);
    GroupsMeaning(FlagNames(args));
  }
}
