/** Which virtual machines come back from their own command line. */
module VmRoundTrip {
  import opened Text
  import opened Options
  import opened Devices
  import opened DeviceRoundTrip
  import opened StringSlice
  import opened Bootloaders
  import opened Config
  import opened CommandLine

  // ---------- What the flag table makes of a printed command line ----------

  lemma ReadPair(o: CmdOptions, flag: string, value: string, rest: seq<string>)
    requires flag != "--nested" && flag != "--gui"
    ensures ReadArgs(o, [flag, value] + rest)
         == match SetFlag(o, flag, value) case None => None case Some(p) => ReadArgs(p, rest)
  {
    assert ([flag, value] + rest)[2..] == rest;
  }

  lemma UintRead(n: Uint64)
    ensures UintFlag(Dec(n)) == Some(n)
  {
    ParsePrintedNumber(n, TWO_TO_THE_64 - 1);
  }

  function FlagSet(present: bool, flag: string): set<string> { if present then {flag} else {} }

  function WithSizes(o: CmdOptions, vm: VM): CmdOptions {
    o.(vcpus := if vm.vcpus != 0 then vm.vcpus else o.vcpus,
       memoryMiB := if vm.memory != 0 then RoundToMiB(vm.memory) else o.memoryMiB,
       changed := o.changed + FlagSet(vm.vcpus != 0, "--cpus") + FlagSet(vm.memory != 0, "--memory"))
  }

  lemma ReadOptionalUint(o: CmdOptions, p: CmdOptions, flag: string, n: Uint64, present: bool, rest: seq<string>)
    requires flag != "--nested" && flag != "--gui"
    requires if present then SetFlag(o, flag, Dec(n)) == Some(p) else o == p
    ensures ReadArgs(o, Pair(present, flag, Dec(n)) + rest) == ReadArgs(p, rest)
  {
    if present { ReadPair(o, flag, Dec(n), rest); } else { assert [] + rest == rest; }
  }

  lemma ReadSizes(o: CmdOptions, vm: VM, rest: seq<string>)
    ensures ReadArgs(o, SizeArgs(vm) + rest) == ReadArgs(WithSizes(o, vm), rest)
  {
    var a, b := Pair(vm.vcpus != 0, "--cpus", Dec(vm.vcpus)),
      Pair(vm.memory != 0, "--memory", Dec(RoundToMiB(vm.memory)));
    assert (a + b) + rest == a + (b + rest);
    var p := o.(vcpus := if vm.vcpus != 0 then vm.vcpus else o.vcpus,
                changed := o.changed + FlagSet(vm.vcpus != 0, "--cpus"));
    assert o.changed + {} == o.changed && p.changed + {} == p.changed;
    UintRead(vm.vcpus);
    ReadOptionalUint(o, p, "--cpus", vm.vcpus, vm.vcpus != 0, b + rest);
    UintRead(RoundToMiB(vm.memory));
    ReadOptionalUint(p, WithSizes(o, vm), "--memory", RoundToMiB(vm.memory), vm.memory != 0, rest);
  }

  function BootFlags(b: Bootloader): set<string> {
    match b
    case Linux(_) => LEGACY_FLAGS
    case Efi(_) => {"--bootloader"}
    case MacOS(_) => {}
  }

  /** Only the text of an EFI bootloader can be refused here, for unbalanced quotes. */
  function WithBoot(o: CmdOptions, b: Bootloader): Option<CmdOptions> {
    var p := o.(changed := o.changed + BootFlags(b));
    match b
    case Linux(v) =>
      Some(p.(vmlinuzPath := v.vmlinuzPath, initrdPath := v.initrdPath, kernelCmdline := v.kernelCmdLine))
    case Efi(v) =>
      if ParseString(EfiText(v)).Some? then Some(p.(bootloader := SetValue(o.bootloader, EfiText(v)))) else None
    case MacOS(_) => Some(p)
  }

  lemma ReadLinux(o: CmdOptions, v: LinuxView, rest: seq<string>)
    requires Args(Linux(v)).Some?
    ensures ReadArgs(o, Args(Linux(v)).value + rest) == ReadArgs(WithBoot(o, Linux(v)).value, rest)
  {
    var p := o.(vmlinuzPath := v.vmlinuzPath, changed := o.changed + {"--kernel"});
    var q := p.(initrdPath := v.initrdPath, changed := p.changed + {"--initrd"});
    var r := q.(kernelCmdline := v.kernelCmdLine, changed := q.changed + {"--kernel-cmdline"});
    var c := ["--kernel-cmdline", v.kernelCmdLine] + rest;
    var b := ["--initrd", v.initrdPath] + c;
    assert Args(Linux(v)).value + rest == ["--kernel", v.vmlinuzPath] + b;
    ReadPair(o, "--kernel", v.vmlinuzPath, b);
    ReadPair(p, "--initrd", v.initrdPath, c);
    ReadPair(q, "--kernel-cmdline", v.kernelCmdLine, rest);
    assert r == WithBoot(o, Linux(v)).value;
  }

  lemma ReadBoot(o: CmdOptions, b: Bootloader, rest: seq<string>)
    requires Args(b).Some?
    ensures ReadArgs(o, Args(b).value + rest)
         == match WithBoot(o, b) case None => None case Some(p) => ReadArgs(p, rest)
  {
    match b
    case Linux(v) => ReadLinux(o, v, rest);
    case Efi(v) => ReadPair(o, "--bootloader", EfiText(v), rest);
    case MacOS(_) =>
      assert [] + rest == rest;
      assert o.changed + {} == o.changed;
  }

  ghost predicate Printable(devices: seq<Device>) { forall i :: 0 <= i < |devices| ==> DeviceText(devices[i]).Some? }

  function Texts(devices: seq<Device>): (texts: seq<string>)
    requires Printable(devices)
    ensures |texts| == |devices|
  {
    if devices == [] then [] else [DeviceText(devices[0]).value] + Texts(devices[1..])
  }

  function WithDevices(o: CmdOptions, devices: seq<Device>): CmdOptions
    requires Printable(devices)
  {
    o.(devices := o.devices + Texts(devices), changed := o.changed + FlagSet(devices != [], "--device"))
  }

  lemma ReadDeviceFlag(o: CmdOptions, text: string, more: seq<string>, rest: seq<string>)
    ensures ReadArgs(o, (["--device", text] + more) + rest)
         == ReadArgs(o.(devices := o.devices + [text], changed := o.changed + {"--device"}), more + rest)
  {
    Regroup(["--device", text], more, rest);
    ReadPair(o, "--device", text, more + rest);
    assert SetFlag(o, "--device", text)
        == Some(o.(devices := o.devices + [text], changed := o.changed + {"--device"}));
  }

  lemma WithDevicesStep(o: CmdOptions, devices: seq<Device>)
    requires devices != [] && Printable(devices)
    ensures Printable(devices[1..])
    ensures WithDevices(o.(devices := o.devices + [DeviceText(devices[0]).value], changed := o.changed + {"--device"}),
                        devices[1..])
         == WithDevices(o, devices)
  {
    var text := DeviceText(devices[0]).value;
    assert (o.devices + [text]) + Texts(devices[1..]) == o.devices + ([text] + Texts(devices[1..]));
    assert (o.changed + {"--device"}) + FlagSet(devices[1..] != [], "--device") == o.changed + {"--device"};
  }

  lemma {:induction false} ReadDeviceFlags(o: CmdOptions, devices: seq<Device>, rest: seq<string>)
    requires DevicesArgs(devices).Some?
    ensures Printable(devices)
    ensures ReadArgs(o, DevicesArgs(devices).value + rest) == ReadArgs(WithDevices(o, devices), rest)
    decreases |devices|
  {
    if devices == [] {
      assert [] + rest == rest && o.devices + [] == o.devices && o.changed + {} == o.changed;
    } else {
      var text, more := DeviceText(devices[0]).value, DevicesArgs(devices[1..]).value;
      var p := o.(devices := o.devices + [text], changed := o.changed + {"--device"});
      ReadDeviceFlags(p, devices[1..], rest);
      ReadDeviceFlag(o, text, more, rest);
      WithDevicesStep(o, devices);
    }
  }

  function WithRest(o: CmdOptions, ignition: Option<Ignition>, nested: bool): CmdOptions {
    var p := match ignition
             case None => o
             case Some(i) => o.(ignitionPath := i.configPath, changed := o.changed + {"--ignition"});
    if nested then p.(isNested := true, changed := p.changed + {"--nested"}) else p
  }

  lemma ReadRest(o: CmdOptions, ignition: Option<Ignition>, nested: bool)
    ensures ReadArgs(o, IgnitionArgs(ignition) + NestedArgs(nested)) == Some(WithRest(o, ignition, nested))
  {
    var p := match ignition
             case None => o
             case Some(i) => o.(ignitionPath := i.configPath, changed := o.changed + {"--ignition"});
    assert [] + NestedArgs(nested) == NestedArgs(nested);
    if ignition.Some? { ReadPair(o, "--ignition", ignition.value.configPath, NestedArgs(nested)); }
    if nested { assert ["--nested"][1..] == []; }
  }

  /** The options read from a printed command line; none if the EFI text is refused. */
  function OptionsOfVm(vm: VM): Option<CmdOptions>
    requires vm.bootloader.Some? && Printable(vm.devices)
  {
    match WithBoot(WithSizes(DEFAULTS, vm), vm.bootloader.value)
    case None => None
    case Some(o) => Some(WithRest(WithDevices(o, vm.devices), vm.ignition, vm.nested))
  }

  /** The five parts of a printed command line, read from the left. */
  lemma LeftToRight(a: seq<string>, b: seq<string>, c: seq<string>, d: seq<string>, e: seq<string>)
    ensures a + b + c + d + e == a + (b + (c + (d + e)))
  {
  }

  lemma ReadParts(o: CmdOptions, vm: VM)
    requires VmArgs(vm).Some? && o == WithSizes(DEFAULTS, vm)
    ensures Printable(vm.devices)
    ensures ReadArgs(o, Args(vm.bootloader.value).value
                        + (DevicesArgs(vm.devices).value + (IgnitionArgs(vm.ignition) + NestedArgs(vm.nested))))
         == OptionsOfVm(vm)
  {
    var rest := IgnitionArgs(vm.ignition) + NestedArgs(vm.nested);
    ReadBoot(o, vm.bootloader.value, DevicesArgs(vm.devices).value + rest);
    ReadDeviceFlags(o, vm.devices, rest);
    if WithBoot(o, vm.bootloader.value).Some? {
      var p := WithBoot(o, vm.bootloader.value).value;
      ReadDeviceFlags(p, vm.devices, rest);
      ReadRest(WithDevices(p, vm.devices), vm.ignition, vm.nested);
    }
  }

  lemma ReadVmArgs(vm: VM)
    requires VmArgs(vm).Some?
    ensures Printable(vm.devices)
    ensures ReadArgs(DEFAULTS, VmArgs(vm).value) == OptionsOfVm(vm)
  {
    var boot, devices := Args(vm.bootloader.value).value, DevicesArgs(vm.devices).value;
    var ignition, nested := IgnitionArgs(vm.ignition), NestedArgs(vm.nested);
    LeftToRight(SizeArgs(vm), boot, devices, ignition, nested);
    ReadSizes(DEFAULTS, vm, boot + (devices + (ignition + nested)));
    ReadParts(WithSizes(DEFAULTS, vm), vm);
  }

  function OtherFlags(vm: VM): set<string> {
    FlagSet(vm.vcpus != 0, "--cpus") + FlagSet(vm.memory != 0, "--memory") + FlagSet(vm.devices != [], "--device")
    + FlagSet(vm.ignition.Some?, "--ignition") + FlagSet(vm.nested, "--nested")
  }

  lemma OtherFlagsHarmless(vm: VM, f: string)
    requires f in OtherFlags(vm)
    ensures f != "--bootloader" && f !in LEGACY_FLAGS
  {
  }

  lemma GroupsOfBoot(b: Bootloader, changed: set<string>, others: set<string>)
    requires changed == BootFlags(b) + others
    requires forall f :: f in others ==> f != "--bootloader" && f !in LEGACY_FLAGS
    ensures FlagGroupsValid(changed)
  {
    assert LEGACY_FLAGS * changed == LEGACY_FLAGS * BootFlags(b);
    match b
    case Linux(_) => assert "--bootloader" !in LEGACY_FLAGS;
    case Efi(_) => assert LEGACY_FLAGS * {"--bootloader"} == {};
    case MacOS(_) =>
  }

  lemma Unions(boot: set<string>, a: set<string>, b: set<string>, c: set<string>, d: set<string>, e: set<string>)
    ensures {} + a + b + boot + c + d + e == boot + (a + b + c + d + e)
  {
  }

  lemma RestFlags(o: CmdOptions, ignition: Option<Ignition>, nested: bool)
    ensures WithRest(o, ignition, nested).changed
         == o.changed + FlagSet(ignition.Some?, "--ignition") + FlagSet(nested, "--nested")
  {
  }

  lemma ChangedFlags(vm: VM)
    requires vm.bootloader.Some? && Printable(vm.devices) && OptionsOfVm(vm).Some?
    ensures OptionsOfVm(vm).value.changed == BootFlags(vm.bootloader.value) + OtherFlags(vm)
  {
    var o := WithBoot(WithSizes(DEFAULTS, vm), vm.bootloader.value).value;
    RestFlags(WithDevices(o, vm.devices), vm.ignition, vm.nested);
    Unions(BootFlags(vm.bootloader.value), FlagSet(vm.vcpus != 0, "--cpus"), FlagSet(vm.memory != 0, "--memory"),
           FlagSet(vm.devices != [], "--device"), FlagSet(vm.ignition.Some?, "--ignition"),
           FlagSet(vm.nested, "--nested"));
  }

  /** A printed command line never breaks the flag group rules. */
  lemma FlagGroupsKept(vm: VM)
    requires VmArgs(vm).Some?
    ensures ReadArgs(DEFAULTS, VmArgs(vm).value).Some?
        ==> FlagGroupsValid(ReadArgs(DEFAULTS, VmArgs(vm).value).value.changed)
  {
    ReadVmArgs(vm);
    if OptionsOfVm(vm).Some? {
      ChangedFlags(vm);
      forall f | f in OtherFlags(vm) ensures f != "--bootloader" && f !in LEGACY_FLAGS { OtherFlagsHarmless(vm, f); }
      GroupsOfBoot(vm.bootloader.value, OptionsOfVm(vm).value.changed, OtherFlags(vm));
    }
  }

  // ---------- What is rebuilt ----------

  /** The size rounded up to a whole number of MiB. */
  function RoundedUp(bytes: nat): nat { (bytes + MIB - 1) / MIB * MIB }

  predicate IgnitionSurvives(ignition: Option<Ignition>) {
    match ignition
    case None => true
    case Some(i) =>
      i.configPath != "" && Plain(i.configPath) && i.socketPath == "" && i.vsockPort == IGNITION_VSOCK_PORT
  }

  predicate BootSurvives(b: Bootloader) {
    match b
    case Linux(_) => true
    case Efi(v) => Clean(v.storePath, false)
    case MacOS(_) => false
  }

  predicate DeviceSurvives(d: Device, raw: DiskOracle) { Readable(d, raw) && Survives(d) }

  /** What a caller can check before starting vfkit with a printed command line. */
  predicate VmSurvives(vm: VM, env: Env)
    requires vm.bootloader.Some?
  {
    && vm.vcpus != 0
    && 0 < vm.memory <= LARGEST_ROUNDED
    && BootSurvives(vm.bootloader.value)
    && (forall i :: 0 <= i < |vm.devices| ==> DeviceSurvives(vm.devices[i], env.raw))
    && vm.timesync.None?
    && IgnitionSurvives(vm.ignition)
    && (vm.nested ==> env.nestedSupported)
  }

  lemma {:induction false} DevicesRebuilt(devices: seq<Device>, raw: DiskOracle)
    requires Printable(devices)
    ensures ReadDevices(Texts(devices), raw) == devices
       <==> (forall i :: 0 <= i < |devices| ==> DeviceSurvives(devices[i], raw))
  {
    if devices != [] {
      var rest := devices[1..];
      DevicesRebuilt(rest, raw);
      DeviceRoundTrips(devices[0], raw);
      assert forall i :: 0 <= i < |rest| ==> rest[i] == devices[i+1];
      assert devices == [devices[0]] + rest;
      if forall i :: 0 <= i < |devices| ==> DeviceSurvives(devices[i], raw) { assert DeviceSurvives(devices[0], raw); }
      if DeviceSurvives(devices[0], raw) && forall i :: 0 <= i < |rest| ==> DeviceSurvives(rest[i], raw) {
        forall i | 0 <= i < |devices| ensures DeviceSurvives(devices[i], raw) {
          if i > 0 { assert DeviceSurvives(rest[i-1], raw); }
        }
      }
    }
  }

  lemma BootRebuilt(o: CmdOptions, b: Bootloader)
    requires Args(b).Some? && WithBoot(o, b).Some?
    requires o.vmlinuzPath == o.kernelCmdline == o.initrdPath == "" && o.bootloader == FlagValue([], false)
    ensures ChosenBootloader(WithBoot(o, b).value) == Some(b) <==> BootSurvives(b)
  {
    match b
    case Linux(v) =>
    case Efi(v) => EfiRoundTrips(v);
    case MacOS(_) =>
  }

  lemma SizesRebuilt(vm: VM)
    ensures WithSizes(DEFAULTS, vm).vcpus == vm.vcpus
            && MiBToBytes(WithSizes(DEFAULTS, vm).memoryMiB) == RoundedUp(vm.memory)
       <==> vm.vcpus != 0 && 0 < vm.memory <= LARGEST_ROUNDED
  {
    RoundIsLeast(vm.memory);
  }

  ghost predicate CameBack(r: Option<VM>, vm: VM) {
    r.Some? && r.value.memory == RoundedUp(vm.memory) && r.value.(memory := vm.memory) == vm
  }

  function RebuiltParts(vm: VM, boot: Option<Bootloader>, devices: seq<Device>, ignition: Option<Option<Ignition>>,
                        env: Env): Option<VM>
  {
    if boot.None? || (vm.nested && !env.nestedSupported) || |devices| != |vm.devices| || ignition.None? then None
    else
      Some(VM(WithSizes(DEFAULTS, vm).vcpus, MiBToBytes(WithSizes(DEFAULTS, vm).memoryMiB), boot, devices,
              None, ignition.value, vm.nested))
  }

  /** o is what a printed command line sets, apart from its flag names. */
  ghost predicate PrintedOptions(o: CmdOptions, vm: VM)
    requires vm.bootloader.Some? && Printable(vm.devices)
  {
    && o.vcpus == WithSizes(DEFAULTS, vm).vcpus && o.memoryMiB == WithSizes(DEFAULTS, vm).memoryMiB
    && o.devices == Texts(vm.devices)
    && o.isNested == vm.nested
    && o.ignitionPath == (match vm.ignition case None => "" case Some(i) => i.configPath)
    && o.timeSync == "" && o.cloudInitFiles.value == [] && o.pidFile == "" && !o.useGUI
  }

  lemma OptionsArePrinted(vm: VM)
    requires vm.bootloader.Some? && Printable(vm.devices) && OptionsOfVm(vm).Some?
    ensures PrintedOptions(OptionsOfVm(vm).value, vm)
  {
    assert [] + Texts(vm.devices) == Texts(vm.devices);
  }

  /** What such options rebuild. */
  lemma RebuiltFromPrint(o: CmdOptions, vm: VM, env: Env)
    requires vm.bootloader.Some? && Printable(vm.devices) && PrintedOptions(o, vm)
    ensures Rebuilt(o, env)
         == RebuiltParts(vm, ChosenBootloader(o), ReadDevices(Texts(vm.devices), env.raw),
                         IgnitionFromText(o.ignitionPath), env)
  {
  }

  lemma IgnitionOfPrint(o: CmdOptions, vm: VM)
    requires vm.bootloader.Some? && Printable(vm.devices) && PrintedOptions(o, vm)
    ensures IgnitionFromText(o.ignitionPath) == Some(vm.ignition) <==> IgnitionSurvives(vm.ignition)
  {
    IgnitionReads(o.ignitionPath);
  }

  lemma BootOfPrint(vm: VM)
    requires VmArgs(vm).Some? && Printable(vm.devices) && OptionsOfVm(vm).Some?
    ensures ChosenBootloader(OptionsOfVm(vm).value) == Some(vm.bootloader.value) <==> BootSurvives(vm.bootloader.value)
  {
    var o := WithSizes(DEFAULTS, vm);
    BootRebuilt(o, vm.bootloader.value);
    assert ChosenBootloader(OptionsOfVm(vm).value) == ChosenBootloader(WithBoot(o, vm.bootloader.value).value);
  }

  lemma PrintRebuilds(o: CmdOptions, vm: VM, env: Env)
    requires vm.bootloader.Some? && Printable(vm.devices) && PrintedOptions(o, vm)
    requires ChosenBootloader(o) == Some(vm.bootloader.value) <==> BootSurvives(vm.bootloader.value)
    ensures CameBack(Rebuilt(o, env), vm) <==> VmSurvives(vm, env)
  {
    SizesRebuilt(vm);
    RebuiltFromPrint(o, vm, env);
    IgnitionOfPrint(o, vm);
    DevicesRebuilt(vm.devices, env.raw);
  }

  /** Started with its own printed command line, vfkit rebuilds the same machine, devices in order and memory
      rounded up to the next MiB, exactly when the machine satisfies VmSurvives. */
  lemma VmRoundTrips(vm: VM, env: Env)
    requires VmArgs(vm).Some?
    ensures CameBack(Started(VmArgs(vm).value, env), vm) <==> VmSurvives(vm, env)
  {
    ReadVmArgs(vm);
    FlagGroupsKept(vm);
    if OptionsOfVm(vm).Some? {
      OptionsArePrinted(vm);
      BootOfPrint(vm);
      PrintRebuilds(OptionsOfVm(vm).value, vm, env);
    } else {
      UnreadableBoot(vm);
    }
  }

  lemma UnreadableBoot(vm: VM)
    requires vm.bootloader.Some? && Printable(vm.devices) && OptionsOfVm(vm).None?
    ensures !BootSurvives(vm.bootloader.value)
  {
    var v := vm.bootloader.value.efi;
    EfiQuotes(v);
    CleanMeaning(v.storePath, false);
  }

  // ---------- Starting, printing and starting again ----------

  /** What a machine that some command line described must satisfy besides. */
  predicate VmStable(vm: VM)
    requires vm.bootloader.Some?
  {
    && vm.vcpus != 0
    && vm.memory != 0
    && BootSurvives(vm.bootloader.value)
    && (forall i :: 0 <= i < |vm.devices| ==> Survives(vm.devices[i]) && !ShowsGui(vm.devices[i]))
    && vm.timesync.None?
  }

  predicate ShowsGui(d: Device) { d.Gpu? && d.gpu.usesGUI }

  lemma BytesAreWhole(mib: Uint64)
    ensures RoundedUp(MiBToBytes(mib)) == MiBToBytes(mib) <= LARGEST_ROUNDED
  {
    var bytes := MiBToBytes(mib);
    assert mib * MIB == (mib * MIB) / TWO_TO_THE_64 * TWO_TO_THE_64 + bytes;
    assert TWO_TO_THE_64 == 0x1000_0000_0000 * MIB;
    assert bytes % MIB == 0;
  }

  lemma {:induction false} ReadDevicesReadable(texts: seq<string>, raw: DiskOracle)
    ensures forall d :: d in ReadDevices(texts, raw) ==> Readable(d, raw)
  {
    if texts != [] {
      AcceptedIsReadable(texts[0], raw);
      ReadDevicesReadable(texts[1..], raw);
    }
  }

  /** What every machine that some command line describes satisfies. */
  ghost predicate Describable(vm: VM, env: Env) {
    && vm.bootloader.Some?
    && RoundedUp(vm.memory) == vm.memory <= LARGEST_ROUNDED
    && IgnitionSurvives(vm.ignition)
    && (vm.nested ==> env.nestedSupported)
    && forall d :: d in vm.devices ==> ShowsGui(d) || Readable(d, env.raw)
  }

  lemma StartedIsDescribable(args: seq<string>, env: Env)
    requires Started(args, env).Some?
    ensures Describable(Started(args, env).value, env)
  {
    var o := ReadArgs(DEFAULTS, args).value;
    BytesAreWhole(o.memoryMiB);
    IgnitionReads(o.ignitionPath);
    ReadDevicesReadable(DeviceTexts(o, CloudInitImage(o.cloudInitFiles.value, env).value), env.raw);
  }

  lemma StableSurvives(vm: VM, env: Env)
    requires Describable(vm, env)
    ensures VmSurvives(vm, env) <==> VmStable(vm)
  {
    forall i | 0 <= i < |vm.devices|
      ensures DeviceSurvives(vm.devices[i], env.raw) <==> Survives(vm.devices[i]) && !ShowsGui(vm.devices[i])
    {
      assert vm.devices[i] in vm.devices;
    }
  }

  lemma CameBackWhole(r: Option<VM>, vm: VM)
    requires RoundedUp(vm.memory) == vm.memory
    ensures CameBack(r, vm) <==> r == Some(vm)
  {
    assert vm.(memory := vm.memory) == vm;
  }

  /** A machine described by any command line comes back unchanged from the one printed for it, exactly when it
      satisfies VmStable. */
  lemma StartPrintStart(args: seq<string>, env: Env)
    requires Started(args, env).Some? && VmArgs(Started(args, env).value).Some?
    ensures var vm := Started(args, env).value;
            Started(VmArgs(vm).value, env) == Some(vm) <==> vm.bootloader.Some? && VmStable(vm)
  {
    var vm := Started(args, env).value;
    StartedIsDescribable(args, env);
    VmRoundTrips(vm, env);
    CameBackWhole(Started(VmArgs(vm).value, env), vm);
    StableSurvives(vm, env);
  }

  // ---------- --gui ----------

  /** --gui keeps the configured devices first, guarantees a display and a keyboard or pointer, and is idempotent. */
  lemma GuiCompletes(devices: seq<Device>)
    ensures devices <= WithGui(devices) && |WithGui(devices)| <= |devices| + 2
    ensures (exists d :: d in WithGui(devices) && d.Gpu?) && (exists d :: d in WithGui(devices) && d.Input?)
    ensures WithGui(WithGui(devices)) == WithGui(devices)
  {
    var done := WithGui(devices);
    var withGpu := if Select(IsGpu, devices) == [] then devices + [GUI_GPU] else devices;
    SelectMembers(IsGpu, devices);
    SelectMembers(IsInput, withGpu);
    var g := if Select(IsGpu, devices) == [] then GUI_GPU else Select(IsGpu, devices)[0];
    assert g in withGpu && g.Gpu?;
    var k := if Select(IsInput, withGpu) == [] then GUI_KEYBOARD else Select(IsInput, withGpu)[0];
    assert g in done && k in done && k.Input?;
    SelectHits(IsGpu, done, g);
    SelectHits(IsInput, done, k);
  }

  lemma {:induction false} SelectHits<T>(keep: T -> bool, items: seq<T>, x: T)
    requires x in items && keep(x)
    ensures Select(keep, items) != []
  {
    if !keep(items[0]) { SelectHits(keep, items[1..], x); }
  }
}
