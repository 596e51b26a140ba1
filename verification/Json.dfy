/** The JSON form of a virtual machine, on documents as values; objects are unordered (section 4 of RFC 8259). */
module Json {
  import opened Text
  import opened Devices
  import opened Bootloaders
  import opened Config

  datatype Json =
    | Null
    | Bool(flag: bool)
    | Num(number: int)
    | Str(text: string)
    | Arr(items: seq<Json>)
    | Obj(fields: map<string, Json>)

  type Fields = map<string, Json>

  // ---------- Reading one field of an object: absent and null leave the value as it was ----------

  function Present(m: Fields, key: string): bool { key in m && m[key] != Null }

  function StrField(m: Fields, key: string, start: string): Option<string> {
    if !Present(m, key) then Some(start) else if m[key].Str? then Some(m[key].text) else None
  }

  function BoolField(m: Fields, key: string): Option<bool> {
    if !Present(m, key) then Some(false) else if m[key].Bool? then Some(m[key].flag) else None
  }

  function Uint32Field(m: Fields, key: string, start: Uint32): Option<Uint32> {
    if !Present(m, key) then Some(start)
    else if m[key].Num? && 0 <= m[key].number <= MAX_UINT32 then Some(m[key].number) else None
  }

  function Uint64Field(m: Fields, key: string, start: Uint64): Option<Uint64> {
    if !Present(m, key) then Some(start)
    else if m[key].Num? && 0 <= m[key].number < TWO_TO_THE_64 then Some(m[key].number) else None
  }

  function Int64Field(m: Fields, key: string): Option<Int64> {
    if !Present(m, key) then Some(0)
    else if m[key].Num? && -MAX_INT64 - 1 <= m[key].number <= MAX_INT64 then Some(m[key].number) else None
  }

  /** A struct can be read from an object, and null leaves it untouched. */
  function FieldsOf(j: Json): Option<Fields> {
    match j
    case Obj(m) => Some(m)
    case Null => Some(map[])
    case _ => None
  }

  // ---------- Writing fields, with omitempty ----------

  function PutStr(m: Fields, key: string, s: string): Fields { if s == "" then m else m[key := Str(s)] }

  function PutBool(m: Fields, key: string, b: bool): Fields { if b then m[key := Bool(true)] else m }

  // ---------- Devices ----------

  function DiskFields(m: Fields, d: DiskView): Fields {
    PutStr(PutStr(PutBool(m["devName" := Str(d.devName)], "readOnly", d.readOnly), "imagePath", d.imagePath),
           "type", d.backend)
  }

  function ReadDisk(m: Fields): Option<DiskView> {
    match (StrField(m, "devName", ""), BoolField(m, "readOnly"), StrField(m, "imagePath", ""), StrField(m, "type", ""))
    case (Some(devName), Some(readOnly), Some(imagePath), Some(backend)) =>
      Some(DiskView(devName, readOnly, imagePath, backend))
    case _ => None
  }

  function BlkFields(m: Fields, d: BlkView): Fields {
    PutStr(DiskFields(m, d.disk), "deviceIdentifier", d.deviceIdentifier)
  }

  function ReadBlk(m: Fields): Option<BlkView> {
    match (ReadDisk(m), StrField(m, "deviceIdentifier", ""))
    case (Some(disk), Some(id)) => Some(BlkView(disk, id))
    case _ => None
  }

  /** An open file has no exported fields: whatever its descriptor, it is written as an empty object. */
  function PutSocket(m: Fields, socket: Option<Socket>): Fields {
    if socket.Some? then m["socket" := Obj(map[])] else m
  }

  /** And any object is read as the zero file. */
  function SocketField(m: Fields): Option<Option<Socket>> {
    if !Present(m, "socket") then Some(None)
    else if m["socket"].Obj? then Some(Some(NoDescriptor)) else None
  }

  function NetFields(m: Fields, d: NetView): Fields {
    var n := PutStr(PutSocket(m["nat" := Bool(d.usesNat)], d.socket), "unixSocketPath", d.unixSocketPath);
    PutStr(PutBool(n, "vfkitMagic", d.vfkitMagic), "macAddress", MacString(d.mac))
  }

  /** An absent vfkitMagic means true, for documents older than the field; without a path it is dropped. */
  function ReadNet(m: Fields): Option<NetView> {
    var magic := if Present(m, "vfkitMagic") then BoolField(m, "vfkitMagic") else Some(true);
    match (BoolField(m, "nat"), SocketField(m), StrField(m, "unixSocketPath", ""), magic, StrField(m, "macAddress", ""))
    case (Some(nats), Some(socket), Some(path), Some(magic), Some(mac)) =>
      if mac != "" && ParseMac(mac).None? then None
      else Some(NetView(nats, if mac == "" then [] else ParseMac(mac).value, socket, path, magic && path != ""))
    case _ => None
  }

  function SerialFields(m: Fields, d: SerialView): Fields {
    PutStr(PutBool(PutBool(PutStr(m, "logFile", d.logFile), "usesStdio", d.usesStdio), "usesPty", d.usesPty),
           "ptyName", d.ptyName)
  }

  function ReadSerial(m: Fields): Option<SerialView> {
    match (StrField(m, "logFile", ""), BoolField(m, "usesStdio"), BoolField(m, "usesPty"), StrField(m, "ptyName", ""))
    case (Some(logFile), Some(stdio), Some(pty), Some(ptyName)) => Some(SerialView(logFile, stdio, pty, ptyName))
    case _ => None
  }

  function VsockFields(m: Fields, d: VsockView): Fields {
    PutBool(m["port" := Num(d.port)]["socketURL" := Str(d.socketURL)], "listen", d.listen)
  }

  function ReadVsock(m: Fields): Option<VsockView> {
    match (Uint32Field(m, "port", 0), StrField(m, "socketURL", ""), BoolField(m, "listen"))
    case (Some(port), Some(url), Some(listen)) => Some(VsockView(port, url, listen))
    case _ => None
  }

  function FsFields(m: Fields, d: FsView): Fields { m["mountTag" := Str(d.mountTag)]["sharedDir" := Str(d.sharedDir)] }

  function ReadFs(m: Fields): Option<FsView> {
    match (StrField(m, "mountTag", ""), StrField(m, "sharedDir", ""))
    case (Some(tag), Some(dir)) => Some(FsView(tag, dir))
    case _ => None
  }

  function RosettaFields(m: Fields, d: RosettaView): Fields {
    m["mountTag" := Str(d.mountTag)]["installRosetta" := Bool(d.installRosetta)]
     ["ignoreIfMissing" := Bool(d.ignoreIfMissing)]
  }

  function ReadRosetta(m: Fields): Option<RosettaView> {
    match (StrField(m, "mountTag", ""), BoolField(m, "installRosetta"), BoolField(m, "ignoreIfMissing"))
    case (Some(tag), Some(install), Some(ignore)) => Some(RosettaView(tag, install, ignore))
    case _ => None
  }

  function GpuFields(m: Fields, d: GpuView): Fields {
    m["usesGUI" := Bool(d.usesGUI)]["width" := Num(d.width)]["height" := Num(d.height)]
  }

  function ReadGpu(m: Fields): Option<GpuView> {
    match (BoolField(m, "usesGUI"), Int64Field(m, "width"), Int64Field(m, "height"))
    case (Some(gui), Some(width), Some(height)) => Some(GpuView(gui, width, height))
    case _ => None
  }

  function InputFields(m: Fields, d: InputView): Fields { m["inputType" := Str(d.inputType)] }

  function ReadInput(m: Fields): Option<InputView> {
    match StrField(m, "inputType", "")
    case None => None
    case Some(t) => Some(InputView(t))
  }

  function NbdStorageFields(m: Fields, d: NbdStorageView): Fields {
    PutStr(PutBool(m["devName" := Str(d.devName)], "readOnly", d.readOnly), "uri", d.uri)
  }

  function NbdFields(m: Fields, d: NbdView): Fields {
    NbdStorageFields(m, d.storage)["DeviceIdentifier" := Str(d.deviceIdentifier)]["Timeout" := Num(d.timeout)]
      ["SynchronizationMode" := Str(d.syncMode)]
  }

  function ReadNbdStorage(m: Fields): Option<NbdStorageView> {
    match (StrField(m, "devName", ""), BoolField(m, "readOnly"), StrField(m, "uri", ""))
    case (Some(devName), Some(readOnly), Some(uri)) => Some(NbdStorageView(devName, readOnly, uri))
    case _ => None
  }

  function ReadNbd(m: Fields): Option<NbdView> {
    match (ReadNbdStorage(m), StrField(m, "DeviceIdentifier", ""), Int64Field(m, "Timeout"),
           StrField(m, "SynchronizationMode", ""))
    case (Some(storage), Some(id), Some(timeout), Some(sync)) => Some(NbdView(storage, id, timeout, sync))
    case _ => None
  }

  function KindTag(kind: DeviceKind): string {
    match kind
    case KRosetta => "rosetta"
    case KNvme => "nvme"
    case KBlk => "virtioblk"
    case KFs => "virtiofs"
    case KNet => "virtionet"
    case KRng => "virtiorng"
    case KSerial => "virtioserial"
    case KVsock => "virtiosock"
    case KUsb => "usbmassstorage"
    case KInput => "virtioinput"
    case KGpu => "virtiogpu"
    case KBalloon => "virtioballoon"
    case KNbd => "nbd"
  }

  function KindOfTag(tag: string): Option<DeviceKind> {
    match tag
    case "virtionet" => Some(KNet)
    case "virtiosock" => Some(KVsock)
    case "virtioblk" => Some(KBlk)
    case "nvme" => Some(KNvme)
    case "virtiofs" => Some(KFs)
    case "rosetta" => Some(KRosetta)
    case "virtiorng" => Some(KRng)
    case "virtioballoon" => Some(KBalloon)
    case "virtioserial" => Some(KSerial)
    case "virtiogpu" => Some(KGpu)
    case "virtioinput" => Some(KInput)
    case "usbmassstorage" => Some(KUsb)
    case "nbd" => Some(KNbd)
    case _ => None
  }

  lemma KindTagRead(kind: DeviceKind)
    ensures KindOfTag(KindTag(kind)) == Some(kind)
  {
  }

  function DeviceFields(m: Fields, d: Device): Fields {
    match d
    case Rosetta(v) => RosettaFields(m, v)
    case Nvme(v) => DiskFields(m, v)
    case Blk(v) => BlkFields(m, v)
    case Fs(v) => FsFields(m, v)
    case Net(v) => NetFields(m, v)
    case Rng => m
    case Serial(v) => SerialFields(m, v)
    case Vsock(v) => VsockFields(m, v)
    case Usb(v) => DiskFields(m, v)
    case Input(v) => InputFields(m, v)
    case Gpu(v) => GpuFields(m, v)
    case Balloon => m
    case Nbd(v) => NbdFields(m, v)
  }

  function ReadFields(kind: DeviceKind, m: Fields): Option<Device> {
    match kind
    case KRosetta => Tagged(ReadRosetta(m), d => Rosetta(d))
    case KNvme => Tagged(ReadDisk(m), d => Nvme(d))
    case KBlk => Tagged(ReadBlk(m), d => Blk(d))
    case KFs => Tagged(ReadFs(m), d => Fs(d))
    case KNet => Tagged(ReadNet(m), d => Net(d))
    case KRng => Some(Rng)
    case KSerial => Tagged(ReadSerial(m), d => Serial(d))
    case KVsock => Tagged(ReadVsock(m), d => Vsock(d))
    case KUsb => Tagged(ReadDisk(m), d => Usb(d))
    case KInput => Tagged(ReadInput(m), d => Input(d))
    case KGpu => Tagged(ReadGpu(m), d => Gpu(d))
    case KBalloon => Some(Balloon)
    case KNbd => Tagged(ReadNbd(m), d => Nbd(d))
  }

  function Tag(kind: DeviceKind): Fields { map["kind" := Str(KindTag(kind))] }

  function WriteDevice(d: Device): Json { Obj(DeviceFields(Tag(KindOfDevice(d)), d)) }

  function ReadDevice(j: Json): Option<Device> {
    match FieldsOf(j)
    case None => None
    case Some(m) =>
      match StrField(m, "kind", "")
      case None => None
      case Some(tag) =>
        match KindOfTag(tag)
        case None => None
        case Some(kind) => ReadFields(kind, m)
  }

  // ---------- Devices round trip ----------

  lemma DiskJson(kind: DeviceKind, d: DiskView)
    ensures ReadDisk(DiskFields(Tag(kind), d)) == Some(d)
  {
  }

  lemma BlkJson(d: BlkView)
    ensures ReadBlk(BlkFields(Tag(KBlk), d)) == Some(d)
  {
    var m := BlkFields(Tag(KBlk), d);
    assert StrField(m, "deviceIdentifier", "") == Some(d.deviceIdentifier);
    assert ReadDisk(m) == Some(d.disk);
  }

  predicate NetJsonSurvives(d: NetView) {
    && (d.socket.Some? ==> d.socket.value.NoDescriptor?)
    && (d.mac == [] || IsMacLength(|d.mac|))
    && (d.vfkitMagic <==> d.unixSocketPath != "")
  }

  lemma NetFieldsRead(d: NetView)
    ensures var m := NetFields(Tag(KNet), d);
            && BoolField(m, "nat") == Some(d.usesNat)
            && SocketField(m) == Some(if d.socket.Some? then Some(NoDescriptor) else None)
            && StrField(m, "unixSocketPath", "") == Some(d.unixSocketPath)
            && StrField(m, "macAddress", "") == Some(MacString(d.mac))
            && (Present(m, "vfkitMagic") <==> d.vfkitMagic)
            && (d.vfkitMagic ==> BoolField(m, "vfkitMagic") == Some(true))
  {
  }

  lemma NetJson(d: NetView)
    ensures ReadNet(NetFields(Tag(KNet), d)) == Some(d) <==> NetJsonSurvives(d)
  {
    var m := NetFields(Tag(KNet), d);
    MacRoundTrip(d.mac);
    MacStringShape(d.mac);
    NetFieldsRead(d);
  }

  lemma SerialJson(d: SerialView)
    ensures ReadSerial(SerialFields(Tag(KSerial), d)) == Some(d)
  {
  }

  lemma VsockJson(d: VsockView)
    ensures ReadVsock(VsockFields(Tag(KVsock), d)) == Some(d)
  {
  }

  lemma FsJson(d: FsView)
    ensures ReadFs(FsFields(Tag(KFs), d)) == Some(d)
  {
  }

  lemma RosettaJson(d: RosettaView)
    ensures ReadRosetta(RosettaFields(Tag(KRosetta), d)) == Some(d)
  {
  }

  lemma GpuJson(d: GpuView)
    ensures ReadGpu(GpuFields(Tag(KGpu), d)) == Some(d)
  {
  }

  lemma InputJson(d: InputView)
    ensures ReadInput(InputFields(Tag(KInput), d)) == Some(d)
  {
  }

  lemma NbdJson(d: NbdView)
    ensures ReadNbd(NbdFields(Tag(KNbd), d)) == Some(d)
  {
    var m := NbdFields(Tag(KNbd), d);
    assert ReadNbdStorage(m) == Some(d.storage);
    assert StrField(m, "DeviceIdentifier", "") == Some(d.deviceIdentifier);
    assert Int64Field(m, "Timeout") == Some(d.timeout);
    assert StrField(m, "SynchronizationMode", "") == Some(d.syncMode);
  }

  predicate DeviceJsonSurvives(d: Device) { d.Net? ==> NetJsonSurvives(d.net) }

  lemma StorageFieldsRead(d: Device)
    requires d.Nvme? || d.Blk? || d.Usb? || d.Nbd?
    ensures ReadFields(KindOfDevice(d), DeviceFields(Tag(KindOfDevice(d)), d)) == Some(d)
  {
    match d
    case Nvme(v) => DiskJson(KNvme, v);
    case Blk(v) => BlkJson(v);
    case Usb(v) => DiskJson(KUsb, v);
    case Nbd(v) => NbdJson(v);
  }

  lemma SimpleFieldsRead(d: Device)
    requires !d.Net? && !d.Nvme? && !d.Blk? && !d.Usb? && !d.Nbd?
    ensures ReadFields(KindOfDevice(d), DeviceFields(Tag(KindOfDevice(d)), d)) == Some(d)
  {
    match d
    case Rosetta(v) => RosettaJson(v); assert ReadFields(KRosetta, RosettaFields(Tag(KRosetta), v)) == Some(d);
    case Fs(v) => FsJson(v); assert ReadFields(KFs, FsFields(Tag(KFs), v)) == Some(d);
    case Rng =>
    case Serial(v) => SerialJson(v); assert ReadFields(KSerial, SerialFields(Tag(KSerial), v)) == Some(d);
    case Vsock(v) => VsockJson(v); assert ReadFields(KVsock, VsockFields(Tag(KVsock), v)) == Some(d);
    case Input(v) => InputJson(v); assert ReadFields(KInput, InputFields(Tag(KInput), v)) == Some(d);
    case Gpu(v) => GpuJson(v); assert ReadFields(KGpu, GpuFields(Tag(KGpu), v)) == Some(d);
    case Balloon =>
  }

  lemma DeviceFieldsRead(d: Device)
    ensures ReadFields(KindOfDevice(d), DeviceFields(Tag(KindOfDevice(d)), d)) == Some(d) <==> DeviceJsonSurvives(d)
  {
    if d.Net? { NetJson(d.net); }
    else if d.Nvme? || d.Blk? || d.Usb? || d.Nbd? { StorageFieldsRead(d); }
    else { SimpleFieldsRead(d); }
  }

  lemma KindFieldKept(m: Fields, d: Device)
    requires "kind" in m
    ensures var n := DeviceFields(m, d); "kind" in n && n["kind"] == m["kind"]
  {
  }

  /** A device comes back from its own document exactly when it satisfies DeviceJsonSurvives. */
  lemma DeviceJsonRoundTrips(d: Device)
    ensures ReadDevice(WriteDevice(d)) == Some(d) <==> DeviceJsonSurvives(d)
  {
    var kind := KindOfDevice(d);
    var m := DeviceFields(Tag(kind), d);
    KindFieldKept(Tag(kind), d);
    KindTagRead(kind);
    assert StrField(m, "kind", "") == Some(KindTag(kind));
    DeviceFieldsRead(d);
  }

  // ---------- What a device read from any document looks like ----------

  lemma ReadDeviceMeaning(j: Json)
    requires ReadDevice(j).Some? && ReadDevice(j).value.Net?
    ensures var v := ReadDevice(j).value.net;
            && (v.socket.Some? ==> v.socket.value.NoDescriptor?)
            && (v.mac == [] || IsMacLength(|v.mac|))
            && (v.vfkitMagic ==> v.unixSocketPath != "")
  {
    var m := FieldsOf(j).value;
    var mac := StrField(m, "macAddress", "").value;
    if mac != "" { ParsedMacLength(mac); }
  }

  // ---------- Bootloaders, time synchronisation, ignition ----------

  function WriteBootloader(b: Bootloader): Json {
    match b
    case Linux(v) =>
      Obj(map["kind" := Str("linuxBootloader")]["vmlinuzPath" := Str(v.vmlinuzPath)]
             ["kernelCmdLine" := Str(v.kernelCmdLine)]["initrdPath" := Str(v.initrdPath)])
    case Efi(v) =>
      Obj(map["kind" := Str("efiBootloader")]["efiVariableStorePath" := Str(v.storePath)]
             ["createVariableStore" := Bool(v.create)])
    case MacOS(v) =>
      Obj(map["machineIdentifierPath" := Str(v.machineIdentifierPath)]["hardwareModelPath" := Str(v.hardwareModelPath)]
             ["auxImagePath" := Str(v.auxImagePath)])
  }

  function ReadEfi(m: Fields): Option<Bootloader> {
    match (StrField(m, "efiVariableStorePath", ""), BoolField(m, "createVariableStore"))
    case (Some(path), Some(create)) => Some(Efi(EfiView(path, create)))
    case _ => None
  }

  function ReadLinux(m: Fields): Option<Bootloader> {
    match (StrField(m, "vmlinuzPath", ""), StrField(m, "kernelCmdLine", ""), StrField(m, "initrdPath", ""))
    case (Some(kernel), Some(cmdline), Some(initrd)) => Some(Linux(LinuxView(kernel, cmdline, initrd)))
    case _ => None
  }

  function ReadBootloader(j: Json): Option<Bootloader> {
    match FieldsOf(j)
    case None => None
    case Some(m) =>
      match StrField(m, "kind", "")
      case None => None
      case Some(tag) =>
        if tag == "efiBootloader" then ReadEfi(m) else if tag == "linuxBootloader" then ReadLinux(m) else None
  }

  lemma BootloaderJson(b: Bootloader)
    ensures ReadBootloader(WriteBootloader(b)) == Some(b) <==> !b.MacOS?
    ensures WriteBootloader(b) != Null
  {
    var m := WriteBootloader(b).fields;
    match b
    case Linux(v) => assert StrField(m, "kind", "") == Some("linuxBootloader");
    case Efi(v) => assert StrField(m, "kind", "") == Some("efiBootloader");
    case MacOS(_) => assert !Present(m, "kind");
  }

  /** The vsock port of an ignition is never written. */
  function WriteIgnition(i: Ignition): Json {
    Obj(PutStr(map["kind" := Str("ignition")]["configPath" := Str(i.configPath)], "socketPath", i.socketPath))
  }

  function ReadIgnition(j: Json): Option<Ignition> {
    match FieldsOf(j)
    case None => None
    case Some(m) =>
      match (StrField(m, "configPath", ""), StrField(m, "socketPath", ""))
      case (Some(config), Some(socket)) => Some(Ignition(config, socket, 0))
      case _ => None
  }

  lemma IgnitionJson(i: Ignition)
    ensures ReadIgnition(WriteIgnition(i)) == Some(i.(vsockPort := 0))
  {
  }

  function WriteTimeSync(t: TimeSync): Json { Obj(map["vsockPort" := Num(t.vsockPort)]) }

  /** Reading into an existing time synchronisation keeps its port when the document has none. */
  function ReadTimeSync(start: Option<TimeSync>, j: Json): Option<TimeSync> {
    match FieldsOf(j)
    case None => None
    case Some(m) =>
      match Uint32Field(m, "vsockPort", if start.Some? then start.value.vsockPort else 0)
      case None => None
      case Some(port) => Some(TimeSync(port))
  }

  // ---------- The device array ----------

  function ReadDeviceList(items: seq<Json>): Option<seq<Device>> {
    if items == [] then Some([])
    else
      match (ReadDevice(items[0]), ReadDeviceList(items[1..]))
      case (Some(d), Some(more)) => Some([d] + more)
      case _ => None
  }

  function WriteDeviceList(devices: seq<Device>): seq<Json> {
    if devices == [] then [] else [WriteDevice(devices[0])] + WriteDeviceList(devices[1..])
  }

  function ReadDevicesField(j: Json): Option<seq<Device>> {
    if j.Arr? then ReadDeviceList(j.items) else None
  }

  /** devices read so far, and what the rest of the list adds to them. */
  function Continue(devices: seq<Device>, rest: Option<seq<Device>>): Option<seq<Device>> {
    match rest
    case None => None
    case Some(more) => Some(devices + more)
  }

  lemma ContinueOne(devices: seq<Device>, d: Device, rest: Option<seq<Device>>)
    ensures Continue(devices, Continue([d], rest)) == Continue(devices + [d], rest)
  {
    if rest.Some? { assert devices + ([d] + rest.value) == (devices + [d]) + rest.value; }
  }

  lemma ReadListCons(items: seq<Json>, i: nat)
    requires i < |items|
    ensures ReadDeviceList(items[i..])
         == match ReadDevice(items[i]) case None => None case Some(d) => Continue([d], ReadDeviceList(items[i+1..]))
  {
    assert items[i..][1..] == items[i+1..];
  }

  method UnmarshalDevices(items: seq<Json>) returns (r: Option<seq<Device>>)
    ensures r == ReadDeviceList(items)
  {
    var devices := [];
    assert items[0..] == items;
    if ReadDeviceList(items).Some? { assert [] + ReadDeviceList(items).value == ReadDeviceList(items).value; }
    for i := 0 to |items|
      invariant ReadDeviceList(items) == Continue(devices, ReadDeviceList(items[i..]))
    {
      ReadListCons(items, i);
      var dev := ReadDevice(items[i]);
      if dev.None? { return None; }
      ContinueOne(devices, dev.value, ReadDeviceList(items[i+1..]));
      devices := devices + [dev.value];
    }
    assert devices + [] == devices;
    r := Some(devices);
  }

  lemma {:induction false} DeviceListJson(devices: seq<Device>)
    ensures |WriteDeviceList(devices)| == |devices|
    ensures ReadDeviceList(WriteDeviceList(devices)) == Some(devices)
       <==> forall i :: 0 <= i < |devices| ==> DeviceJsonSurvives(devices[i])
  {
    if devices != [] {
      var rest := devices[1..];
      DeviceJsonRoundTrips(devices[0]);
      assert forall i :: 0 <= i < |rest| ==> rest[i] == devices[i+1];
      DeviceListJson(rest);
      assert devices == [devices[0]] + rest;
      if (forall i :: 0 <= i < |rest| ==> DeviceJsonSurvives(rest[i])) && DeviceJsonSurvives(devices[0]) {
        forall i | 0 <= i < |devices| ensures DeviceJsonSurvives(devices[i]) {
          if i > 0 { assert devices[i] == rest[i-1]; }
        }
      }
    }
  }
}
