/** Turning a machine description into the lists handed to the virtualization framework. */
module VzConfig {
  import opened Text
  import opened Options
  import opened Devices
  import opened Config

  /** The framework list a device ends up in. */
  datatype Class =
    | Storage | Sharing | Keyboards | Pointers | Graphics | Network | Entropy | SerialPorts | ConsolePorts | Sockets
    | Balloons

  function ClassOf(d: Device): Class {
    match d
    case Rosetta(_) => Sharing
    case Nvme(_) => Storage
    case Blk(_) => Storage
    case Fs(_) => Sharing
    case Net(_) => Network
    case Rng => Entropy
    case Serial(v) => if v.usesPty then ConsolePorts else SerialPorts
    case Vsock(_) => Sockets
    case Usb(_) => Storage
    case Input(v) => if v.inputType == "pointing" then Pointers else Keyboards
    case Gpu(_) => Graphics
    case Balloon => Balloons
    case Nbd(_) => Storage
  }

  function InClass(c: Class): Device -> bool { d => ClassOf(d) == c }

  /** Every list entry is written as the device it was made for. */
  datatype Lists = Lists(
    storage: seq<Device>, sharing: seq<Device>, keyboards: seq<Device>, pointers: seq<Device>, graphics: seq<Device>,
    network: seq<Device>, entropy: seq<Device>, serialPorts: seq<Device>, consolePorts: seq<Device>,
    sockets: seq<Device>, balloons: seq<Device>)

  const NO_LISTS := Lists([], [], [], [], [], [], [], [], [], [], [])

  function Of(l: Lists, c: Class): seq<Device> {
    match c
    case Storage => l.storage
    case Sharing => l.sharing
    case Keyboards => l.keyboards
    case Pointers => l.pointers
    case Graphics => l.graphics
    case Network => l.network
    case Entropy => l.entropy
    case SerialPorts => l.serialPorts
    case ConsolePorts => l.consolePorts
    case Sockets => l.sockets
    case Balloons => l.balloons
  }

  type PtyName = s: string | s != "" witness "/dev/ttys000"

  /** The host: whether it opens the pty or connects the socket the i-th device asks for, the name or descriptor it
      hands out, which framework objects can be made, and whether the framework accepts the lists. */
  datatype Host = Host(
    opens: (nat, Device) -> bool,
    ptyName: nat -> PtyName,
    connectedFd: nat -> nat,
    creates: (nat, Device) -> bool,
    accepts: Lists -> bool)

  predicate DiskUsable(d: DiskView) {
    if d.backend == "image" || d.backend == "" then d.imagePath != "" else d.backend == "dev"
  }

  /** vfkit's own checks before it makes a framework object. */
  predicate Usable(d: Device) {
    match d
    case Rosetta(v) => v.mountTag != ""
    case Nvme(v) => DiskUsable(v)
    case Blk(v) => DiskUsable(v.disk)
    case Usb(v) => DiskUsable(v)
    case Fs(v) => v.sharedDir != ""
    case Serial(v) => v.ptyName == ""
    case Net(v) => v.socket != Some(NoDescriptor)
    case Nbd(v) => v.storage.uri != "" && v.deviceIdentifier != "" && '/' !in v.deviceIdentifier
    case _ => true
  }

  /** Appending to the list of the device's class; a second balloon replaces the first. */
  function Put(l: Lists, d: Device): Lists {
    match ClassOf(d)
    case Storage => l.(storage := l.storage + [d])
    case Sharing => l.(sharing := l.sharing + [d])
    case Keyboards => l.(keyboards := l.keyboards + [d])
    case Pointers => l.(pointers := l.pointers + [d])
    case Graphics => l.(graphics := l.graphics + [d])
    case Network => l.(network := l.network + [d])
    case Entropy => l.(entropy := l.entropy + [d])
    case SerialPorts => l.(serialPorts := l.serialPorts + [d])
    case ConsolePorts => l.(consolePorts := l.consolePorts + [d])
    case Sockets => l.(sockets := l.sockets + [d])
    case Balloons => l.(balloons := [d])
  }

  /** One device; a socket device is skipped when there is one already. */
  function Add(l: Lists, i: nat, d: Device, host: Host): Option<Lists> {
    if d.Vsock? && l.sockets != [] then Some(l)
    else if Usable(d) && (AsksHost(d) ==> host.opens(i, d)) && host.creates(i, d) then Some(Put(l, d))
    else None
  }

  /** A pty has to be opened, or a socket to be connected, before the framework object is made. */
  predicate AsksHost(d: Device) {
    match d
    case Net(v) => v.unixSocketPath != ""
    case Serial(v) => v.usesPty
    case _ => false
  }

  /** What the host's answer leaves in a description: a connected descriptor, the name of a pty. */
  function Marked(d: Device, i: nat, host: Host): Device {
    match d
    case Net(v) =>
      if v.unixSocketPath != "" then
        Net(v.(socket := Some(Descriptor(host.connectedFd(i))), unixSocketPath := "")) else d
    case Serial(v) => if v.usesPty then Serial(v.(ptyName := host.ptyName(i))) else d
    case _ => d
  }

  /** What trying to add a device leaves in its description, also when making the framework object then fails. */
  function Tried(d: Device, i: nat, host: Host): Device {
    if Usable(d) && AsksHost(d) && host.opens(i, d) then Marked(d, i, host) else d
  }

  function AddAll(l: Lists, devices: seq<Device>, i: nat, host: Host): Option<Lists>
    requires i <= |devices|
    decreases |devices| - i
  {
    if i == |devices| then Some(l)
    else
      match Add(l, i, devices[i], host)
      case None => None
      case Some(m) => AddAll(m, devices, i + 1, host)
  }

  /** What the loop leaves in the descriptions, up to and including the first device that is refused. */
  function AllTried(l: Lists, devices: seq<Device>, i: nat, host: Host): seq<Device>
    requires i <= |devices|
    decreases |devices| - i
  {
    if i == |devices| then devices
    else
      var now := devices[i := Tried(devices[i], i, host)];
      match Add(l, i, devices[i], host)
      case None => now
      case Some(m) => AllTried(m, now, i + 1, host)
  }

  function PortOf(vm: VM): (Uint32, Uint32) {
    (if vm.timesync.Some? then vm.timesync.value.vsockPort else 0,
     if vm.ignition.Some? then vm.ignition.value.vsockPort else 0)
  }

  /** The socket device vfkit adds itself for a service that needs a port. */
  function AddService(l: Lists, port: Uint32, i: nat, host: Host): Option<Lists> {
    if port == 0 then Some(l) else Add(l, i, Vsock(VsockView(port, "", false)), host)
  }

  function ToVz(l: Lists, vm: VM, host: Host): Option<Lists> {
    match AddAll(l, vm.devices, 0, host)
    case None => None
    case Some(a) =>
      match AddService(a, PortOf(vm).0, |vm.devices|, host)
      case None => None
      case Some(b) =>
        match AddService(b, PortOf(vm).1, |vm.devices| + 1, host)
        case None => None
        case Some(c) => if host.accepts(c) then Some(c) else None
  }

  // ---------- The object ----------

  class VirtualMachineConfiguration {
    var config: VM
    var storageDevices: seq<Device>
    var directorySharingDevices: seq<Device>
    var keyboards: seq<Device>
    var pointingDevices: seq<Device>
    var graphicsDevices: seq<Device>
    var networkDevices: seq<Device>
    var entropyDevices: seq<Device>
    var serialPorts: seq<Device>
    var consolePorts: seq<Device>
    var socketDevices: seq<Device>
    var memoryBalloonDevices: seq<Device>

    function View(): Lists
      reads this
    {
      Lists(storageDevices, directorySharingDevices, keyboards, pointingDevices, graphicsDevices, networkDevices,
            entropyDevices, serialPorts, consolePorts, socketDevices, memoryBalloonDevices)
    }

    constructor (vm: VM)
      ensures config == vm && View() == NO_LISTS
    {
      config := vm;
      storageDevices, directorySharingDevices, keyboards, pointingDevices := [], [], [], [];
      graphicsDevices, networkDevices, entropyDevices := [], [], [];
      serialPorts, consolePorts, socketDevices, memoryBalloonDevices := [], [], [], [];
    }

    method AddSocketDevice(i: nat, d: Device, host: Host) returns (ok: bool)
      requires d.Vsock?
      modifies this`socketDevices
      ensures Add(old(View()), i, d, host) == if ok then Some(View()) else None
      ensures !ok ==> View() == old(View())
    {
      if |socketDevices| != 0 { return true; }
      if !host.creates(i, d) { return false; }
      socketDevices := socketDevices + [d];
      return true;
    }

    method AddToVirtualMachineConfig(i: nat, host: Host) returns (ok: bool)
      requires i < |config.devices|
      modifies this
      ensures Add(old(View()), i, old(config.devices[i]), host) == if ok then Some(View()) else None
      ensures config == old(config).(devices := old(config.devices)[i := Tried(old(config.devices[i]), i, host)])
      ensures !ok ==> View() == old(View())
    {
      var d := config.devices[i];
      if d.Vsock? {
        assert config.devices[i := d] == config.devices;
        ok := AddSocketDevice(i, d, host);
        return;
      }
      config := config.(devices := config.devices[i := Tried(d, i, host)]);
      if !Usable(d) || (AsksHost(d) && !host.opens(i, d)) || !host.creates(i, d) { return false; }
      AppendDevice(d);
      return true;
    }

    /** The list each kind of device is appended to. */
    method AppendDevice(d: Device)
      requires !d.Vsock?
      modifies this
      ensures View() == Put(old(View()), d) && config == old(config)
    {
      match d {
        case Rosetta(_) => directorySharingDevices := directorySharingDevices + [d];
        case Nvme(_) => storageDevices := storageDevices + [d];
        case Blk(_) => storageDevices := storageDevices + [d];
        case Fs(_) => directorySharingDevices := directorySharingDevices + [d];
        case Net(_) => networkDevices := networkDevices + [d];
        case Rng => entropyDevices := entropyDevices + [d];
        case Serial(v) =>
          if v.usesPty { consolePorts := consolePorts + [d]; } else { serialPorts := serialPorts + [d]; }
        case Usb(_) => storageDevices := storageDevices + [d];
        case Input(v) =>
          if v.inputType == "pointing" {
            pointingDevices := pointingDevices + [d];
          } else {
            keyboards := keyboards + [d];
          }
        case Gpu(_) => graphicsDevices := graphicsDevices + [d];
        case Balloon => memoryBalloonDevices := [d];
        case Nbd(_) => storageDevices := storageDevices + [d];
      }
    }

    method AddDevices(host: Host) returns (ok: bool)
      modifies this
      ensures AddAll(old(View()), old(config.devices), 0, host) == if ok then Some(View()) else None
      ensures config == old(config).(devices := AllTried(old(View()), old(config.devices), 0, host))
    {
      ghost var start, devices := View(), config.devices;
      for i := 0 to |config.devices|
        invariant |config.devices| == |devices|
        invariant config == old(config).(devices := config.devices)
        invariant forall k :: i <= k < |devices| ==> config.devices[k] == devices[k]
        invariant AddAll(start, devices, 0, host) == AddAll(View(), devices, i, host)
        invariant AllTried(start, devices, 0, host) == AllTried(View(), config.devices, i, host)
      {
        ok := AddToVirtualMachineConfig(i, host);
        if !ok { return; }
      }
      ok := true;
    }

    method AddServiceDevice(port: Uint32, i: nat, host: Host) returns (ok: bool)
      modifies this`socketDevices
      ensures AddService(old(View()), port, i, host) == if ok then Some(View()) else None
    {
      if port == 0 { return true; }
      ok := AddSocketDevice(i, Vsock(VsockView(port, "", false)), host);
    }

    method Build(host: Host) returns (r: Option<Lists>)
      modifies this
      ensures r == ToVz(old(View()), old(config), host)
      ensures r.Some? ==> r.value == View()
      ensures config == old(config).(devices := AllTried(old(View()), old(config.devices), 0, host))
    {
      TriedLength(View(), config.devices, 0, host);
      var ok := AddDevices(host);
      if !ok { return None; }
      var (timesyncPort, ignitionPort) := PortOf(config);
      ok := AddServiceDevice(timesyncPort, |config.devices|, host);
      if !ok { return None; }
      ok := AddServiceDevice(ignitionPort, |config.devices| + 1, host);
      if !ok { return None; }
      if !host.accepts(View()) { return None; }
      r := Some(View());
    }
  }

  lemma {:induction false} TriedLength(l: Lists, devices: seq<Device>, i: nat, host: Host)
    requires i <= |devices|
    ensures |AllTried(l, devices, i, host)| == |devices|
    decreases |devices| - i
  {
    if i < |devices| {
      match Add(l, i, devices[i], host)
      case None =>
      case Some(m) => TriedLength(m, devices[i := Tried(devices[i], i, host)], i + 1, host);
    }
  }

  // ---------- What a successful run hands over ----------

  lemma PutClass(l: Lists, d: Device, c: Class)
    ensures Of(Put(l, d), c)
         == if ClassOf(d) != c then Of(l, c) else if c == Balloons then [d] else Of(l, c) + [d]
  {
  }

  lemma AddClass(l: Lists, i: nat, d: Device, host: Host, c: Class)
    requires Add(l, i, d, host).Some? && c != Sockets && c != Balloons
    ensures Of(Add(l, i, d, host).value, c) == if ClassOf(d) == c then Of(l, c) + [d] else Of(l, c)
  {
    PutClass(l, d, c);
  }

  lemma {:induction false} AllProjected(l: Lists, devices: seq<Device>, i: nat, host: Host, c: Class)
    requires i <= |devices| && AddAll(l, devices, i, host).Some?
    requires c != Sockets && c != Balloons
    ensures Of(AddAll(l, devices, i, host).value, c) == Of(l, c) + Select(InClass(c), devices[i..])
    decreases |devices| - i
  {
    if i == |devices| {
      assert devices[i..] == [];
      assert Of(l, c) + [] == Of(l, c);
    } else {
      var d := devices[i];
      var rest := Select(InClass(c), devices[i+1..]);
      AddClass(l, i, d, host, c);
      AllProjected(Add(l, i, d, host).value, devices, i + 1, host, c);
      SelectAt(InClass(c), devices, i);
      Regroup(Of(l, c), [d], rest);
    }
  }

  /** After the device loop there is the socket device there was, or else the first one configured. */
  function FirstSocket(sockets: seq<Device>, configured: seq<Device>): seq<Device> {
    if sockets != [] then sockets else if configured != [] then [configured[0]] else []
  }

  lemma {:induction false} SocketsLeft(l: Lists, devices: seq<Device>, i: nat, host: Host)
    requires i <= |devices| && AddAll(l, devices, i, host).Some?
    ensures AddAll(l, devices, i, host).value.sockets == FirstSocket(l.sockets, Select(InClass(Sockets), devices[i..]))
    decreases |devices| - i
  {
    if i == |devices| {
      assert devices[i..] == [];
    } else {
      var d := devices[i];
      SocketsLeft(Add(l, i, d, host).value, devices, i + 1, host);
      assert devices[i..][1..] == devices[i+1..];
      PutClass(l, d, Sockets);
    }
  }

  lemma {:induction false} BalloonsLeft(l: Lists, devices: seq<Device>, i: nat, host: Host)
    requires i <= |devices| && AddAll(l, devices, i, host).Some?
    ensures AddAll(l, devices, i, host).value.balloons
         == if Select(InClass(Balloons), devices[i..]) != [] then [Balloon] else l.balloons
    decreases |devices| - i
  {
    if i == |devices| {
      assert devices[i..] == [];
    } else {
      var d := devices[i];
      BalloonsLeft(Add(l, i, d, host).value, devices, i + 1, host);
      assert devices[i..][1..] == devices[i+1..];
      PutClass(l, d, Balloons);
    }
  }

  lemma ServiceKeepsLists(l: Lists, port: Uint32, i: nat, host: Host)
    requires AddService(l, port, i, host).Some?
    ensures forall c :: c != Sockets ==> Of(AddService(l, port, i, host).value, c) == Of(l, c)
    ensures AddService(l, port, i, host).value.sockets
         == FirstSocket(l.sockets, if port != 0 then [Vsock(VsockView(port, "", false))] else [])
  {
    var d := Vsock(VsockView(port, "", false));
    forall c | c != Sockets ensures Of(Put(l, d), c) == Of(l, c) { PutClass(l, d, c); }
    assert l.sockets == [] ==> l.sockets + [d] == [d];
  }

  lemma ClassProjected(vm: VM, host: Host, c: Class)
    requires ToVz(NO_LISTS, vm, host).Some?
    requires c != Sockets
    ensures var configured := Select(InClass(c), vm.devices);
            Of(ToVz(NO_LISTS, vm, host).value, c) == if c == Balloons && configured != [] then [Balloon] else configured
  {
    var a := AddAll(NO_LISTS, vm.devices, 0, host).value;
    var b := AddService(a, PortOf(vm).0, |vm.devices|, host).value;
    assert vm.devices[0..] == vm.devices;
    if c == Balloons {
      BalloonsLeft(NO_LISTS, vm.devices, 0, host);
    } else {
      AllProjected(NO_LISTS, vm.devices, 0, host, c);
    }
    ServiceKeepsLists(a, PortOf(vm).0, |vm.devices|, host);
    ServiceKeepsLists(b, PortOf(vm).1, |vm.devices| + 1, host);
    assert Of(NO_LISTS, c) == [];
  }

  // ---------- The lists, told by constructors and fields ----------

  predicate IsStorage(d: Device) { d.Nvme? || d.Blk? || d.Usb? || d.Nbd? }
  predicate IsSharing(d: Device) { d.Rosetta? || d.Fs? }
  predicate IsPointer(d: Device) { d.Input? && d.input.inputType == "pointing" }
  predicate IsKeyboard(d: Device) { d.Input? && d.input.inputType != "pointing" }
  predicate IsDisplay(d: Device) { d.Gpu? }
  predicate IsNetwork(d: Device) { d.Net? }
  predicate IsEntropy(d: Device) { d.Rng? }
  predicate IsSerialPort(d: Device) { d.Serial? && !d.serial.usesPty }
  predicate IsConsolePort(d: Device) { d.Serial? && d.serial.usesPty }
  predicate IsSocketDevice(d: Device) { d.Vsock? }
  predicate IsBalloon(d: Device) { d.Balloon? }

  function TimeSyncPort(vm: VM): Uint32 { if vm.timesync.Some? then vm.timesync.value.vsockPort else 0 }

  function IgnitionPort(vm: VM): Uint32 { if vm.ignition.Some? then vm.ignition.value.vsockPort else 0 }

  /** The first configured socket device; without one, a device for time synchronisation, and else for ignition. */
  function ExpectedSockets(vm: VM): seq<Device> {
    var configured := Select(IsSocketDevice, vm.devices);
    if configured != [] then [configured[0]]
    else if TimeSyncPort(vm) != 0 then [Vsock(VsockView(TimeSyncPort(vm), "", false))]
    else if IgnitionPort(vm) != 0 then [Vsock(VsockView(IgnitionPort(vm), "", false))]
    else []
  }

  function Expected(vm: VM): Lists {
    var devices := vm.devices;
    Lists(
      Select(IsStorage, devices), Select(IsSharing, devices), Select(IsKeyboard, devices), Select(IsPointer, devices),
      Select(IsDisplay, devices), Select(IsNetwork, devices), Select(IsEntropy, devices),
      Select(IsSerialPort, devices), Select(IsConsolePort, devices), ExpectedSockets(vm),
      if Select(IsBalloon, devices) != [] then [Balloon] else [])
  }

  lemma StorageSelected(devices: seq<Device>)
    ensures Select(InClass(Storage), devices) == Select(IsStorage, devices)
    ensures Select(InClass(Sharing), devices) == Select(IsSharing, devices)
    ensures Select(InClass(Network), devices) == Select(IsNetwork, devices)
    ensures Select(InClass(Entropy), devices) == Select(IsEntropy, devices)
  {
    SelectSame(InClass(Storage), IsStorage, devices);
    SelectSame(InClass(Sharing), IsSharing, devices);
    SelectSame(InClass(Network), IsNetwork, devices);
    SelectSame(InClass(Entropy), IsEntropy, devices);
  }

  lemma InputSelected(devices: seq<Device>)
    ensures Select(InClass(Keyboards), devices) == Select(IsKeyboard, devices)
    ensures Select(InClass(Pointers), devices) == Select(IsPointer, devices)
    ensures Select(InClass(Graphics), devices) == Select(IsDisplay, devices)
  {
    SelectSame(InClass(Keyboards), IsKeyboard, devices);
    SelectSame(InClass(Pointers), IsPointer, devices);
    SelectSame(InClass(Graphics), IsDisplay, devices);
  }

  lemma ConsoleSelected(devices: seq<Device>)
    ensures Select(InClass(SerialPorts), devices) == Select(IsSerialPort, devices)
    ensures Select(InClass(ConsolePorts), devices) == Select(IsConsolePort, devices)
  {
    SelectSame(InClass(SerialPorts), IsSerialPort, devices);
    SelectSame(InClass(ConsolePorts), IsConsolePort, devices);
  }

  lemma SingleSelected(devices: seq<Device>)
    ensures Select(InClass(Sockets), devices) == Select(IsSocketDevice, devices)
    ensures Select(InClass(Balloons), devices) == Select(IsBalloon, devices)
  {
    SelectSame(InClass(Sockets), IsSocketDevice, devices);
    SelectSame(InClass(Balloons), IsBalloon, devices);
  }

  lemma SocketsExpected(vm: VM, host: Host)
    requires ToVz(NO_LISTS, vm, host).Some?
    ensures ToVz(NO_LISTS, vm, host).value.sockets == ExpectedSockets(vm)
  {
    var a := AddAll(NO_LISTS, vm.devices, 0, host).value;
    var b := AddService(a, PortOf(vm).0, |vm.devices|, host).value;
    assert vm.devices[0..] == vm.devices;
    SocketsLeft(NO_LISTS, vm.devices, 0, host);
    SingleSelected(vm.devices);
    ServiceKeepsLists(a, PortOf(vm).0, |vm.devices|, host);
    ServiceKeepsLists(b, PortOf(vm).1, |vm.devices| + 1, host);
  }

  /** A successful run on a fresh configuration loses, duplicates and reorders nothing: every list holds the
      configured devices of its kinds, in order. Only balloons, where the last replaces the others, and socket
      devices are limited to one. */
  lemma ListsAreFaithful(vm: VM, host: Host)
    requires ToVz(NO_LISTS, vm, host).Some?
    ensures ToVz(NO_LISTS, vm, host).value == Expected(vm)
  {
    StorageSelected(vm.devices);
    InputSelected(vm.devices);
    ConsoleSelected(vm.devices);
    SingleSelected(vm.devices);
    SocketsExpected(vm, host);
    forall c | c != Sockets ensures Of(ToVz(NO_LISTS, vm, host).value, c) == Of(Expected(vm), c) {
      ClassProjected(vm, host, c);
    }
    SameLists(ToVz(NO_LISTS, vm, host).value, Expected(vm));
  }

  lemma SameLists(l: Lists, m: Lists)
    requires forall c :: Of(l, c) == Of(m, c)
    ensures l == m
  {
    assert Of(l, Storage) == Of(m, Storage) && Of(l, Sharing) == Of(m, Sharing) && Of(l, Keyboards) == Of(m, Keyboards);
    assert Of(l, Pointers) == Of(m, Pointers) && Of(l, Graphics) == Of(m, Graphics) && Of(l, Network) == Of(m, Network);
    assert Of(l, Entropy) == Of(m, Entropy) && Of(l, SerialPorts) == Of(m, SerialPorts);
    assert Of(l, ConsolePorts) == Of(m, ConsolePorts) && Of(l, Sockets) == Of(m, Sockets);
    assert Of(l, Balloons) == Of(m, Balloons);
  }

  /** There is at most one socket device, and one exactly when a vsock device is configured or a service needs a
      port; a configured one, the first, is preferred to the automatic ones. */
  lemma SingleSocketDevice(vm: VM, host: Host)
    requires ToVz(NO_LISTS, vm, host).Some?
    ensures var sockets := ToVz(NO_LISTS, vm, host).value.sockets;
            && |sockets| <= 1
            && (|sockets| == 1
                <==> || (exists d :: d in vm.devices && d.Vsock?)
                     || (vm.timesync.Some? && vm.timesync.value.vsockPort != 0)
                     || (vm.ignition.Some? && vm.ignition.value.vsockPort != 0))
            && (Select(IsSocketDevice, vm.devices) != [] ==> sockets == [Select(IsSocketDevice, vm.devices)[0]])
  {
    SocketsExpected(vm, host);
    SingleSelected(vm.devices);
    SelectHasSockets(vm.devices);
  }

  lemma {:induction false} SelectHasSockets(devices: seq<Device>)
    ensures Select(InClass(Sockets), devices) != [] <==> exists d :: d in devices && d.Vsock?
  {
    if devices != [] {
      SelectHasSockets(devices[1..]);
      assert forall d :: d in devices <==> d == devices[0] || d in devices[1..];
      assert InClass(Sockets)(devices[0]) <==> devices[0].Vsock?;
    }
  }

  // ---------- Which configurations are accepted, and which a second time ----------

  /** A host that turns nothing down, so that only vfkit's own checks count. */
  ghost predicate Permissive(host: Host) {
    && (forall i, d :: host.opens(i, d))
    && (forall i, d :: host.creates(i, d))
    && (forall l :: host.accepts(l))
  }

  /** vfkit's own checks, told by constructors and fields. */
  predicate Passes(d: Device) {
    match d
    case Rosetta(v) => v.mountTag != ""
    case Nvme(v) => DiskPasses(v)
    case Usb(v) => DiskPasses(v)
    case Blk(v) => DiskPasses(v.disk)
    case Fs(v) => v.sharedDir != ""
    case Net(v) => !(v.socket.Some? && v.socket.value.NoDescriptor?)
    case Serial(v) => v.ptyName == ""
    case Nbd(v) => v.storage.uri != "" && v.deviceIdentifier != "" && '/' !in v.deviceIdentifier
    case _ => true
  }

  predicate DiskPasses(d: DiskView) {
    d.backend == "dev" || ((d.backend == "image" || d.backend == "") && d.imagePath != "")
  }

  /** The host does its part for the i-th device. */
  predicate Serves(host: Host, i: nat, d: Device) {
    && (d.Net? && d.net.unixSocketPath != "" ==> host.opens(i, d))
    && (UsesPty(d) ==> host.opens(i, d))
    && host.creates(i, d)
  }

  lemma AddMeaning(l: Lists, i: nat, d: Device, host: Host)
    ensures Add(l, i, d, host).Some? <==> (d.Vsock? && l.sockets != []) || (Passes(d) && Serves(host, i, d))
    ensures Add(l, i, d, host).Some? ==> (Add(l, i, d, host).value.sockets != [] <==> d.Vsock? || l.sockets != [])
  {
  }

  /** A socket device behind another one is not looked at. */
  predicate Skipped(devices: seq<Device>, k: nat)
    requires k < |devices|
  {
    devices[k].Vsock? && exists j :: 0 <= j < k && devices[j].Vsock?
  }

  predicate Added(devices: seq<Device>, k: nat, host: Host)
    requires k < |devices|
  {
    Skipped(devices, k) || (Passes(devices[k]) && Serves(host, k, devices[k]))
  }

  lemma {:induction false} AllAdded(l: Lists, devices: seq<Device>, i: nat, host: Host)
    requires i <= |devices|
    requires l.sockets != [] <==> exists j :: 0 <= j < i && devices[j].Vsock?
    ensures AddAll(l, devices, i, host).Some? <==> forall k :: i <= k < |devices| ==> Added(devices, k, host)
    decreases |devices| - i
  {
    if i < |devices| {
      AddMeaning(l, i, devices[i], host);
      match Add(l, i, devices[i], host)
      case None => assert !Added(devices, i, host);
      case Some(m) =>
        assert Added(devices, i, host);
        AllAdded(m, devices, i + 1, host);
    }
  }

  /** A service that needs a port gets a socket device, if there is none. */
  predicate ServicesServed(vm: VM, host: Host) {
    var none := forall d :: d in vm.devices ==> !d.Vsock?;
    && (none && TimeSyncPort(vm) != 0 ==> host.creates(|vm.devices|, Vsock(VsockView(TimeSyncPort(vm), "", false))))
    && (none && TimeSyncPort(vm) == 0 && IgnitionPort(vm) != 0 ==>
          host.creates(|vm.devices| + 1, Vsock(VsockView(IgnitionPort(vm), "", false))))
  }

  lemma ServiceMeaning(l: Lists, port: Uint32, i: nat, host: Host)
    ensures AddService(l, port, i, host).Some?
       <==> port == 0 || l.sockets != [] || host.creates(i, Vsock(VsockView(port, "", false)))
    ensures AddService(l, port, i, host).Some? ==>
              (AddService(l, port, i, host).value.sockets != [] <==> port != 0 || l.sockets != [])
  {
  }

  /** A run succeeds exactly when every device is skipped, or passes vfkit's own checks and is served by the host, the
      services are served too, and the framework accepts the lists. It then hands over just those lists. */
  lemma BuildAccepts(vm: VM, host: Host)
    ensures ToVz(NO_LISTS, vm, host)
         == if (forall k :: 0 <= k < |vm.devices| ==> Added(vm.devices, k, host)) && ServicesServed(vm, host)
               && host.accepts(Expected(vm)) then Some(Expected(vm)) else None
  {
    AllAdded(NO_LISTS, vm.devices, 0, host);
    if AddAll(NO_LISTS, vm.devices, 0, host).Some? {
      ServicesMeaning(vm, host);
      if ServicesServed(vm, host) { ListsBeforeAccepts(vm, host); }
    }
  }

  /** Both services get what they need after the devices have been added. */
  predicate ServicesAdded(vm: VM, a: Lists, host: Host) {
    var b := AddService(a, PortOf(vm).0, |vm.devices|, host);
    b.Some? && AddService(b.value, PortOf(vm).1, |vm.devices| + 1, host).Some?
  }

  lemma ServicesMeaning(vm: VM, host: Host)
    requires AddAll(NO_LISTS, vm.devices, 0, host).Some?
    ensures ServicesServed(vm, host) <==> ServicesAdded(vm, AddAll(NO_LISTS, vm.devices, 0, host).value, host)
  {
    var a := AddAll(NO_LISTS, vm.devices, 0, host).value;
    assert vm.devices[0..] == vm.devices;
    SocketsLeft(NO_LISTS, vm.devices, 0, host);
    SelectHasSockets(vm.devices);
    ServiceMeaning(a, PortOf(vm).0, |vm.devices|, host);
    var b := AddService(a, PortOf(vm).0, |vm.devices|, host);
    if b.Some? { ServiceMeaning(b.value, PortOf(vm).1, |vm.devices| + 1, host); }
  }

  /** Whether the framework accepts them has no bearing on what the lists are. */
  lemma ListsBeforeAccepts(vm: VM, host: Host)
    requires AddAll(NO_LISTS, vm.devices, 0, host).Some?
    requires ServicesAdded(vm, AddAll(NO_LISTS, vm.devices, 0, host).value, host)
    ensures ToVz(NO_LISTS, vm, host) == if host.accepts(Expected(vm)) then Some(Expected(vm)) else None
  {
    var easy := host.(accepts := l => true);
    SameButAccepts(NO_LISTS, vm.devices, 0, host, easy);
    ListsAreFaithful(vm, easy);
  }

  lemma {:induction false} SameButAccepts(l: Lists, devices: seq<Device>, i: nat, host: Host, other: Host)
    requires i <= |devices| && other == host.(accepts := other.accepts)
    ensures AddAll(l, devices, i, host) == AddAll(l, devices, i, other)
    decreases |devices| - i
  {
    if i < |devices| {
      match Add(l, i, devices[i], host)
      case None =>
      case Some(m) => SameButAccepts(m, devices, i + 1, host, other);
    }
  }

  ghost predicate AllPass(devices: seq<Device>) { forall k :: 0 <= k < |devices| ==> Passes(devices[k]) }

  /** On a permissive host vfkit's own checks decide. */
  lemma PermissiveBuild(vm: VM, host: Host)
    ensures ToVz(NO_LISTS, vm, host).Some? ==> AllPass(vm.devices)
    ensures Permissive(host) && AllPass(vm.devices) ==> ToVz(NO_LISTS, vm, host).Some?
  {
    BuildAccepts(vm, host);
    if ToVz(NO_LISTS, vm, host).Some? {
      forall k | 0 <= k < |vm.devices| ensures Passes(vm.devices[k]) {
        assert Added(vm.devices, k, host);
      }
    }
  }

  lemma {:induction false} TriedAt(l: Lists, devices: seq<Device>, i: nat, host: Host, k: nat)
    requires i <= |devices| && k < |devices| && AddAll(l, devices, i, host).Some?
    ensures |AllTried(l, devices, i, host)| == |devices|
    ensures AllTried(l, devices, i, host)[k] == if k < i then devices[k] else Marked(devices[k], k, host)
    decreases |devices| - i
  {
    TriedLength(l, devices, i, host);
    if i < |devices| {
      var now, m := devices[i := Tried(devices[i], i, host)], Add(l, i, devices[i], host).value;
      SameFrom(m, devices, now, i + 1, host);
      TriedAt(m, now, i + 1, host, k);
    }
  }

  /** The loop does not look back. */
  lemma {:induction false} SameFrom(l: Lists, devices: seq<Device>, now: seq<Device>, i: nat, host: Host)
    requires i <= |devices| == |now|
    requires forall k :: i <= k < |devices| ==> devices[k] == now[k]
    ensures AddAll(l, devices, i, host) == AddAll(l, now, i, host)
    decreases |devices| - i
  {
    if i < |devices| {
      match Add(l, i, devices[i], host)
      case None =>
      case Some(m) => SameFrom(m, devices, now, i + 1, host);
    }
  }

  predicate Dials(d: Device) { d.Net? && d.net.unixSocketPath != "" }

  predicate UsesPty(d: Device) { d.Serial? && d.serial.usesPty }

  lemma MarkedPasses(d: Device, i: nat, host: Host)
    requires Passes(d)
    ensures Passes(Marked(d, i, host)) <==> !UsesPty(d)
    ensures !d.Net? && !UsesPty(d) ==> Marked(d, i, host) == d
    ensures AsksHost(Marked(d, i, host)) <==> UsesPty(d)
  {
  }

  /** What the host's answer leaves in a description, told by constructors and fields. */
  function Opened(d: Device, k: nat, host: Host): Device {
    if !Passes(d) || !host.opens(k, d) then d
    else if Dials(d) then
      Net(d.net.(socket := Some(Descriptor(host.connectedFd(k))), unixSocketPath := ""))
    else if UsesPty(d) then Serial(d.serial.(ptyName := host.ptyName(k)))
    else d
  }

  /** Successful or not, a run opens what each device asks for, up to the first device that is refused. */
  lemma {:induction false} TriedMeaning(l: Lists, devices: seq<Device>, i: nat, host: Host, k: nat)
    requires i <= |devices| && k < |devices|
    requires l.sockets != [] <==> exists j :: 0 <= j < i && devices[j].Vsock?
    ensures |AllTried(l, devices, i, host)| == |devices|
    ensures AllTried(l, devices, i, host)[k]
         == if i <= k && (forall j :: i <= j < k ==> Added(devices, j, host)) then Opened(devices[k], k, host)
            else devices[k]
    decreases |devices| - i
  {
    if i < |devices| {
      var now := devices[i := Tried(devices[i], i, host)];
      assert Tried(devices[i], i, host) == Opened(devices[i], i, host);
      AddMeaning(l, i, devices[i], host);
      assert Add(l, i, devices[i], host).Some? <==> Added(devices, i, host);
      match Add(l, i, devices[i], host)
      case None => assert i < k ==> !Added(devices, i, host);
      case Some(m) =>
        forall j | i < j < |devices| ensures Added(now, j, host) <==> Added(devices, j, host) {
          SameSkipped(devices, now, i, j);
        }
        OneMoreSocket(devices, now, i);
        TriedMeaning(m, now, i + 1, host, k);
    }
  }

  lemma OneMoreSocket(devices: seq<Device>, now: seq<Device>, i: nat)
    requires i < |devices| == |now|
    requires now == devices[i := now[i]] && (now[i].Vsock? <==> devices[i].Vsock?)
    ensures (exists j :: 0 <= j < i + 1 && now[j].Vsock?)
       <==> devices[i].Vsock? || exists j :: 0 <= j < i && devices[j].Vsock?
  {
    if devices[i].Vsock? { assert now[i].Vsock?; }
    if j :| 0 <= j < i && devices[j].Vsock? { assert now[j].Vsock?; }
  }

  lemma SameSkipped(devices: seq<Device>, now: seq<Device>, i: nat, j: nat)
    requires i < j < |devices| == |now|
    requires now == devices[i := now[i]] && (now[i].Vsock? <==> devices[i].Vsock?)
    ensures Skipped(now, j) <==> Skipped(devices, j)
  {
    assert forall x :: 0 <= x < j ==> (now[x].Vsock? <==> devices[x].Vsock?);
  }

  /** The descriptions a successful run leaves behind. */
  function After(vm: VM, host: Host): VM {
    vm.(devices := AllTried(NO_LISTS, vm.devices, 0, host))
  }

  /** A run writes pty names and connected sockets into its configuration. vfkit's own checks accept what it leaves
      behind exactly when no device uses a pty. */
  lemma SecondRun(vm: VM, host: Host, again: Host)
    requires ToVz(NO_LISTS, vm, host).Some? && Permissive(again)
    ensures ToVz(NO_LISTS, After(vm, host), again).Some? <==> forall d :: d in vm.devices ==> !UsesPty(d)
  {
    var now := After(vm, host).devices;
    PermissiveBuild(vm, host);
    PermissiveBuild(After(vm, host), again);
    TriedLength(NO_LISTS, vm.devices, 0, host);
    forall k | 0 <= k < |now| ensures Passes(now[k]) <==> !UsesPty(vm.devices[k]) {
      TriedAt(NO_LISTS, vm.devices, 0, host, k);
      MarkedPasses(vm.devices[k], k, host);
    }
    if AllPass(now) {
      forall d | d in vm.devices ensures !UsesPty(d) {
        var k :| 0 <= k < |vm.devices| && vm.devices[k] == d;
        assert Passes(now[k]);
      }
    }
  }

  /** A network device once its socket path has been dialled; any other device is as it was. */
  function Connected(d: Device, i: nat, host: Host): Device {
    if d.Net? && d.net.unixSocketPath != "" then
      Net(d.net.(unixSocketPath := "", socket := Some(Descriptor(host.connectedFd(i)))))
    else d
  }

  /** On any host: a pty makes the second run fail. If it succeeds, it asks for no socket or pty and leaves the
      configuration as it is; against the first configuration, only network devices have changed, from a path to a
      connected socket. */
  lemma SecondRunKeeps(vm: VM, host: Host, again: Host)
    requires ToVz(NO_LISTS, vm, host).Some?
    ensures |After(vm, host).devices| == |vm.devices|
    ensures (exists d :: d in vm.devices && UsesPty(d)) ==> ToVz(NO_LISTS, After(vm, host), again).None?
    ensures ToVz(NO_LISTS, After(vm, host), again).Some? ==>
              && After(After(vm, host), again) == After(vm, host)
              && forall k :: 0 <= k < |vm.devices| ==>
                   && !UsesPty(After(vm, host).devices[k]) && !Dials(After(vm, host).devices[k])
                   && After(vm, host).devices[k] == Connected(vm.devices[k], k, host)
  {
    var now := After(vm, host).devices;
    var twice := After(After(vm, host), again).devices;
    PermissiveBuild(vm, host);
    PermissiveBuild(After(vm, host), again);
    TriedLength(NO_LISTS, vm.devices, 0, host);
    TriedLength(NO_LISTS, now, 0, again);
    forall k | 0 <= k < |now| ensures Passes(now[k]) <==> !UsesPty(vm.devices[k]) {
      TriedAt(NO_LISTS, vm.devices, 0, host, k);
      MarkedPasses(vm.devices[k], k, host);
    }
    if ToVz(NO_LISTS, After(vm, host), again).Some? {
      forall k | 0 <= k < |now|
        ensures twice[k] == now[k] && !UsesPty(now[k]) && !Dials(now[k]) && now[k] == Connected(vm.devices[k], k, host)
      {
        TriedAt(NO_LISTS, vm.devices, 0, host, k);
        TriedAt(NO_LISTS, now, 0, again, k);
        MarkedPasses(vm.devices[k], k, host);
        assert Passes(now[k]);
      }
      assert twice == now;
    }
  }
}
