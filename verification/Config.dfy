/** The virtual machine description: its value, the object that accumulates it, and its command line. */
module Config {
  import opened Text
  import opened Options
  import opened Devices
  import opened DeviceObjects
  import opened Bootloaders

  datatype Ignition = Ignition(configPath: string, socketPath: string, vsockPort: Uint32)
  datatype TimeSync = TimeSync(vsockPort: Uint32)

  datatype VM = VM(
    vcpus: Uint64,
    memory: Uint64,
    bootloader: Option<Bootloader>,
    devices: seq<Device>,
    timesync: Option<TimeSync>,
    ignition: Option<Ignition>,
    nested: bool)

  const IGNITION_VSOCK_PORT: Uint32 := 1024
  const MIB := 0x10_0000

  // ---------- Memory, in 64-bit words ----------

  /** roundToMiB: the sum wraps around before it is shifted. */
  function RoundToMiB(bytes: Uint64): Uint64 { ((bytes + MIB - 1) % TWO_TO_THE_64) / MIB }

  /** strongunits.MiB.ToBytes: a shift that drops the high bits. */
  function MiBToBytes(mib: Uint64): Uint64 { (mib * MIB) % TWO_TO_THE_64 }

  const LARGEST_ROUNDED: int := TWO_TO_THE_64 - MIB

  /** The least number of MiB that holds bytes, unless the sum wraps; then it is too small. */
  lemma RoundIsLeast(bytes: Uint64)
    ensures RoundToMiB(bytes) * 1_048_576 >= bytes <==> bytes <= 0xFFFF_FFFF_FFF0_0000
    ensures bytes <= 0xFFFF_FFFF_FFF0_0000 ==> forall m: int :: m * 1_048_576 >= bytes ==> m >= RoundToMiB(bytes)
    ensures bytes <= 0xFFFF_FFFF_FFF0_0000 ==> RoundToMiB(bytes) * 1_048_576 - bytes < 1_048_576
    ensures bytes > 0xFFFF_FFFF_FFF0_0000 ==> RoundToMiB(bytes) == 0
  {
    if bytes > LARGEST_ROUNDED {
      assert (bytes + MIB - 1) % TWO_TO_THE_64 == bytes + MIB - 1 - TWO_TO_THE_64;
    }
  }

  lemma RoundIsMonotone(a: Uint64, b: Uint64)
    requires a <= b <= LARGEST_ROUNDED
    ensures RoundToMiB(a) <= RoundToMiB(b)
    ensures RoundToMiB(a) * MIB == a <==> a % MIB == 0
  {
  }

  /** Printing the rounded size and rebuilding from it changes nothing more. */
  lemma RoundIsIdempotent(bytes: Uint64)
    requires bytes <= LARGEST_ROUNDED
    ensures MiBToBytes(RoundToMiB(bytes)) == RoundToMiB(bytes) * MIB
    ensures RoundToMiB(MiBToBytes(RoundToMiB(bytes))) == RoundToMiB(bytes)
    ensures bytes <= MiBToBytes(RoundToMiB(bytes)) < bytes + MIB
  {
    RoundIsLeast(bytes);
  }

  /** A size of 2^44 MiB and more loses its high bits. */
  lemma HighBitsAreLost(mib: Uint64)
    ensures mib < 0x1000_0000_0000 ==> MiBToBytes(mib) == mib * 1_048_576
    ensures mib >= 0x1000_0000_0000 ==> MiBToBytes(mib) == MiBToBytes(mib - 0x1000_0000_0000)
  {
  }

  // ---------- The command line ----------

  function Pair(present: bool, flag: string, value: string): seq<string> { if present then [flag, value] else [] }

  function DevicesArgs(devices: seq<Device>): Option<seq<string>> {
    if devices == [] then Some([])
    else
      match (DeviceArgs(devices[0]), DevicesArgs(devices[1..]))
      case (Some(args), Some(more)) => Some(args + more)
      case _ => None
  }

  function IgnitionArgs(ignition: Option<Ignition>): seq<string> {
    match ignition
    case None => []
    case Some(i) => ["--ignition", i.configPath]
  }

  function NestedArgs(nested: bool): seq<string> { if nested then ["--nested"] else [] }

  function SizeArgs(vm: VM): seq<string> {
    Pair(vm.vcpus != 0, "--cpus", Dec(vm.vcpus)) + Pair(vm.memory != 0, "--memory", Dec(RoundToMiB(vm.memory)))
  }

  function VmArgs(vm: VM): Option<seq<string>> {
    if vm.bootloader.None? then None
    else
      match (Args(vm.bootloader.value), DevicesArgs(vm.devices))
      case (Some(boot), Some(devices)) =>
        Some(SizeArgs(vm) + boot + devices + IgnitionArgs(vm.ignition) + NestedArgs(vm.nested))
      case _ => None
  }

  lemma {:induction false} DevicesArgsSnoc(devices: seq<Device>, d: Device)
    ensures DevicesArgs(devices + [d])
         == match (DevicesArgs(devices), DeviceArgs(d))
            case (Some(args), Some(more)) => Some(args + more)
            case _ => None
  {
    if devices == [] {
      assert [] + [d] == [d];
      assert [d][1..] == [];
      if DeviceArgs(d).Some? { assert DeviceArgs(d).value + [] == [] + DeviceArgs(d).value; }
    } else {
      assert (devices + [d])[1..] == devices[1..] + [d];
      DevicesArgsSnoc(devices[1..], d);
      if DeviceArgs(devices[0]).Some? && DevicesArgs(devices[1..]).Some? && DeviceArgs(d).Some? {
        var a, b, c := DeviceArgs(devices[0]).value, DevicesArgs(devices[1..]).value, DeviceArgs(d).value;
        assert (a + b) + c == a + (b + c);
      }
    }
  }

  /** The devices read before the first refused text. */
  function ReadDevices(texts: seq<string>, raw: DiskOracle): seq<Device> {
    if texts == [] then []
    else
      match DeviceFromCmdLine(texts[0], raw)
      case None => []
      case Some(d) => [d] + ReadDevices(texts[1..], raw)
  }

  /** The devices read are those of the texts up to the first one that is refused. */
  lemma {:induction false} ReadDevicesMeaning(texts: seq<string>, raw: DiskOracle)
    ensures var devices := ReadDevices(texts, raw);
            && |devices| <= |texts|
            && (forall i :: 0 <= i < |devices| ==> DeviceFromCmdLine(texts[i], raw) == Some(devices[i]))
            && (|devices| < |texts| ==> DeviceFromCmdLine(texts[|devices|], raw).None?)
  {
    if texts != [] && DeviceFromCmdLine(texts[0], raw).Some? { ReadDevicesMeaning(texts[1..], raw); }
  }

  // ---------- Time synchronisation and ignition ----------

  function TimeSyncStep(t: TimeSync, o: Opt): Option<TimeSync> {
    match o.key
    case "vsockPort" => (
      match ParseUint(o.value, MAX_UINT32)
      case None => None
      case Some(port) => if port <= MAX_UINT32 then Some(t.(vsockPort := port)) else None)
    case _ => None
  }

  function TimeSyncFromText(text: string): Option<TimeSync> {
    match Fold(TimeSyncStep, TimeSync(0), TextOptions(text))
    case None => None
    case Some(t) => if t.vsockPort == 0 then None else Some(t)
  }

  function TimeSyncText(t: TimeSync): string {
    if t.vsockPort != 0 then "vsockPort" + "=" + Dec(t.vsockPort) else ""
  }

  /** A time synchronisation comes back from its own text exactly when it has a port. */
  lemma TimeSyncRoundTrips(t: TimeSync)
    ensures TimeSyncFromText(TimeSyncText(t)) == Some(t) <==> t.vsockPort != 0
  {
    if t.vsockPort != 0 {
      DecRoundTrip(t.vsockPort);
      LoneSetting("vsockPort", Dec(t.vsockPort));
      FoldOne(TimeSyncStep, TimeSync(0), Opt("vsockPort", Dec(t.vsockPort)));
      TimeSyncPortRead(t.vsockPort);
    }
  }

  predicate IsPortOption(o: Opt) { o.key == "vsockPort" && ParseUint(o.value, 0xFFFF_FFFF).Some? }

  function VsockPortOf(opts: seq<Opt>): Uint32 {
    match ValueOf("vsockPort", opts)
    case None => 0
    case Some(text) =>
      match ParseUint(text, 0xFFFF_FFFF)
      case None => 0
      case Some(port) => if port <= 0xFFFF_FFFF then port else 0
  }

  /** A text is accepted exactly when its options are all port numbers and the last of them is not zero. */
  lemma TimeSyncAccepts(text: string)
    ensures var opts := TextOptions(text);
            TimeSyncFromText(text)
            == if (forall o :: o in opts ==> IsPortOption(o)) && VsockPortOf(opts) != 0
               then Some(TimeSync(VsockPortOf(opts))) else None
  {
    forall a, o
      ensures TimeSyncStep(TimeSync(VsockPortOf(a)), o)
           == if IsPortOption(o) then Some(TimeSync(VsockPortOf(a + [o]))) else None
    {
      ValueSnoc("vsockPort", a, o);
    }
    FoldDescribes(TimeSyncStep, IsPortOption, a => TimeSync(VsockPortOf(a)), TextOptions(text));
  }

  lemma TimeSyncPortRead(port: Uint32)
    ensures TimeSyncStep(TimeSync(0), Opt("vsockPort", Dec(port))) == Some(TimeSync(port))
  {
    ParsePrintedNumber(port, MAX_UINT32);
  }

  /** An empty text leaves the ignition unset; a comma is refused. */
  function IgnitionFromText(text: string): Option<Option<Ignition>> {
    if text == "" then Some(None)
    else if |Split(text, ',')| != 1 then None
    else Some(Some(Ignition(Split(text, ',')[0], "", IGNITION_VSOCK_PORT)))
  }

  lemma IgnitionReads(text: string)
    ensures IgnitionFromText(text)
         == if text == "" then Some(None)
            else if ',' in text then None
            else Some(Some(Ignition(text, "", 1024)))
  {
    SplitParts(text, ',');
    if ',' !in text { SplitPlain(text, ','); }
  }

  // ---------- The object ----------

  /** The device loop of ToCmdLine: the arguments of one device after the other, or none if one is refused. */
  method DevicesCmdLine(devices: seq<Device>) returns (r: Option<seq<string>>)
    ensures r == DevicesArgs(devices)
  {
    var args := [];
    for i := 0 to |devices|
      invariant DevicesArgs(devices[..i]) == Some(args)
    {
      assert devices[..i+1] == devices[..i] + [devices[i]];
      DevicesArgsSnoc(devices[..i], devices[i]);
      var devArgs := DeviceArgs(devices[i]);
      if devArgs.None? {
        RefusedDevice(devices, i);
        return None;
      }
      args := args + devArgs.value;
    }
    assert devices[..|devices|] == devices;
    r := Some(args);
  }

  class VirtualMachine {
    var vcpus: Uint64
    var memory: Uint64
    var bootloader: Option<Bootloader>
    var devices: seq<Device>
    var timesync: Option<TimeSync>
    var ignition: Option<Ignition>
    var nested: bool

    function View(): VM
      reads this
    {
      VM(vcpus, memory, bootloader, devices, timesync, ignition, nested)
    }

    constructor (vcpus: Uint64, memoryMiB: Uint64, bootloader: Option<Bootloader>)
      ensures View() == VM(vcpus, MiBToBytes(memoryMiB), bootloader, [], None, None, false)
    {
      this.vcpus, this.memory, this.bootloader := vcpus, MiBToBytes(memoryMiB), bootloader;
      devices, timesync, ignition, nested := [], None, None, false;
    }

    method ToCmdLine() returns (r: Option<seq<string>>)
      ensures r == VmArgs(View())
    {
      var args := [];
      if vcpus != 0 {
        args := args + ["--cpus", Dec(vcpus)];
      }
      if memory != 0 {
        args := args + ["--memory", Dec(RoundToMiB(memory))];
      }
      ghost var size := SizeArgs(View());
      assert args == size;
      if bootloader.None? { return None; }
      var bootloaderArgs := Args(bootloader.value);
      if bootloaderArgs.None? { return None; }
      args := args + bootloaderArgs.value;
      var deviceArgs := DevicesCmdLine(devices);
      if deviceArgs.None? { return None; }
      args := args + deviceArgs.value;
      ghost var printed := deviceArgs.value;
      assert args == size + bootloaderArgs.value + printed;
      if ignition.Some? {
        args := args + ["--ignition", ignition.value.configPath];
      }
      assert args == size + bootloaderArgs.value + printed + IgnitionArgs(ignition);
      if nested {
        args := args + ["--nested"];
      }
      assert args == size + bootloaderArgs.value + printed + IgnitionArgs(ignition) + NestedArgs(nested);
      r := Some(args);
    }

    method AddDevices(devs: seq<Device>)
      modifies this`devices
      ensures View() == old(View()).(devices := old(devices) + devs)
    {
      devices := devices + devs;
    }

    /** On a refused text the devices before it have already been added. */
    method AddDevicesFromCmdLine(cmdlineOpts: seq<string>, raw: DiskOracle) returns (ok: bool)
      modifies this`devices
      ensures View() == old(View()).(devices := old(devices) + ReadDevices(cmdlineOpts, raw))
      ensures ok <==> |ReadDevices(cmdlineOpts, raw)| == |cmdlineOpts|
    {
      ghost var all := ReadDevices(cmdlineOpts, raw);
      assert cmdlineOpts[0..] == cmdlineOpts;
      for i := 0 to |cmdlineOpts|
        invariant |devices| == |old(devices)| + i
        invariant devices + ReadDevices(cmdlineOpts[i..], raw) == old(devices) + all
      {
        assert cmdlineOpts[i..][1..] == cmdlineOpts[i+1..];
        ghost var rest := ReadDevices(cmdlineOpts[i+1..], raw);
        var dev := BuildDevice(cmdlineOpts[i], raw);
        if dev.None? {
          assert devices + [] == devices;
          assert |all| == i;
          return false;
        }
        assert devices + ([dev.value] + rest) == (devices + [dev.value]) + rest;
        devices := devices + [dev.value];
      }
      assert devices + [] == devices;
      return true;
    }

    method AddTimeSyncFromCmdLine(cmdlineOpts: string) returns (ok: bool)
      modifies this`timesync
      ensures ok <==> cmdlineOpts == "" || TimeSyncFromText(cmdlineOpts).Some?
      ensures View() == old(View()).(
                        timesync := if ok && cmdlineOpts != "" then TimeSyncFromText(cmdlineOpts) else old(timesync))
    {
      if cmdlineOpts == "" { return true; }
      var options := StrvToOptions(Split(cmdlineOpts, ','));
      var parsed := TimeSync(0);
      for i := 0 to |options|
        invariant Fold(TimeSyncStep, TimeSync(0), options) == Fold(TimeSyncStep, parsed, options[i..])
      {
        var option := options[i];
        assert options[i..][1..] == options[i+1..];
        match option.key
        case "vsockPort" =>
          var vsockPort := ParseUint(option.value, MAX_UINT32);
          if vsockPort.None? { return false; }
          parsed := TimeSync(vsockPort.value);
        case _ => return false;
      }
      if parsed.vsockPort == 0 { return false; }
      timesync := Some(parsed);
      return true;
    }

    method AddIgnitionFileFromCmdLine(cmdlineOpts: string) returns (ok: bool)
      modifies this`ignition
      ensures ok <==> IgnitionFromText(cmdlineOpts).Some?
      ensures View() == old(View()).(
                        ignition := if ok && cmdlineOpts != "" then IgnitionFromText(cmdlineOpts).value
                                    else old(ignition))
    {
      if cmdlineOpts == "" { return true; }
      var opts := Split(cmdlineOpts, ',');
      if |opts| != 1 { return false; }
      ignition := Some(Ignition(opts[0], "", IGNITION_VSOCK_PORT));
      return true;
    }

    method FilterDevices(keep: Device -> bool) returns (devs: seq<Device>)
      ensures devs == Select(keep, devices)
    {
      devs := [];
      for i := 0 to |devices|
        invariant devs + Select(keep, devices[i..]) == Select(keep, devices)
      {
        assert devices[i..][1..] == devices[i+1..];
        ghost var rest := Select(keep, devices[i+1..]);
        assert devs + ([devices[i]] + rest) == (devs + [devices[i]]) + rest;
        if keep(devices[i]) { devs := devs + [devices[i]]; }
      }
    }
  }

  lemma {:induction false} RefusedDevice(devices: seq<Device>, i: nat)
    requires i < |devices| && DeviceArgs(devices[i]).None?
    ensures DevicesArgs(devices).None?
  {
    if i > 0 { RefusedDevice(devices[1..], i - 1); }
  }
}
