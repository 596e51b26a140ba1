/** What is read from an arbitrary JSON document, entry by entry: which documents are accepted, and what each field
    of the result is. An entry that is null counts as absent. */
module JsonDocuments {
  import opened Text
  import opened Devices
  import opened Bootloaders
  import opened Config
  import opened Json
  import opened JsonVm

  // ---------- Entries ----------

  predicate Has(m: Fields, key: string) { key in m && m[key] != Null }

  predicate IsText(m: Fields, key: string) { Has(m, key) ==> m[key].Str? }
  predicate IsFlag(m: Fields, key: string) { Has(m, key) ==> m[key].Bool? }
  predicate IsObject(m: Fields, key: string) { Has(m, key) ==> m[key].Obj? }
  predicate IsNumber(m: Fields, key: string, low: int, high: int) {
    Has(m, key) ==> m[key].Num? && low <= m[key].number <= high
  }
  predicate IsInt64(m: Fields, key: string) { IsNumber(m, key, -0x8000_0000_0000_0000, 0x7FFF_FFFF_FFFF_FFFF) }
  predicate IsUint32(m: Fields, key: string) { IsNumber(m, key, 0, 0xFFFF_FFFF) }
  predicate IsUint64(m: Fields, key: string) { IsNumber(m, key, 0, 0xFFFF_FFFF_FFFF_FFFF) }

  function TextAt(m: Fields, key: string): string { if key in m && m[key].Str? then m[key].text else "" }

  predicate FlagAt(m: Fields, key: string) { key in m && m[key] == Bool(true) }

  function Int64At(m: Fields, key: string): Int64 {
    if Has(m, key) && IsInt64(m, key) then m[key].number else 0
  }

  function Uint32At(m: Fields, key: string, start: Uint32): Uint32 {
    if Has(m, key) && IsUint32(m, key) then m[key].number else start
  }

  function Uint64At(m: Fields, key: string, start: Uint64): Uint64 {
    if Has(m, key) && IsUint64(m, key) then m[key].number else start
  }

  lemma ReadsEntry(m: Fields, key: string)
    ensures StrField(m, key, "") == if IsText(m, key) then Some(TextAt(m, key)) else None
    ensures BoolField(m, key) == if IsFlag(m, key) then Some(FlagAt(m, key)) else None
    ensures Int64Field(m, key) == if IsInt64(m, key) then Some(Int64At(m, key)) else None
  {
  }

  lemma ReadsNumber(m: Fields, key: string, small: Uint32, large: Uint64)
    ensures Uint32Field(m, key, small) == if IsUint32(m, key) then Some(Uint32At(m, key, small)) else None
    ensures Uint64Field(m, key, large) == if IsUint64(m, key) then Some(Uint64At(m, key, large)) else None
  {
  }

  // ---------- Devices ----------

  /** The kinds by their tags. */
  const TAGS: map<string, DeviceKind> := map[
    "virtionet" := KNet, "virtiosock" := KVsock, "virtioblk" := KBlk, "nvme" := KNvme, "virtiofs" := KFs,
    "rosetta" := KRosetta, "virtiorng" := KRng, "virtioballoon" := KBalloon, "virtioserial" := KSerial,
    "virtiogpu" := KGpu, "virtioinput" := KInput, "usbmassstorage" := KUsb, "nbd" := KNbd]

  predicate TypedDisk(m: Fields) {
    IsText(m, "devName") && IsFlag(m, "readOnly") && IsText(m, "imagePath") && IsText(m, "type")
  }

  /** Each entry a kind knows has its type and range; entries it does not know are ignored. */
  predicate Typed(kind: DeviceKind, m: Fields) {
    match kind
    case KRosetta => IsText(m, "mountTag") && IsFlag(m, "installRosetta") && IsFlag(m, "ignoreIfMissing")
    case KNvme => TypedDisk(m)
    case KUsb => TypedDisk(m)
    case KBlk => TypedDisk(m) && IsText(m, "deviceIdentifier")
    case KFs => IsText(m, "mountTag") && IsText(m, "sharedDir")
    case KNet =>
      && IsFlag(m, "nat") && IsObject(m, "socket") && IsText(m, "unixSocketPath") && IsFlag(m, "vfkitMagic")
      && IsText(m, "macAddress") && (TextAt(m, "macAddress") == "" || ParseMac(TextAt(m, "macAddress")).Some?)
    case KRng => true
    case KSerial => IsText(m, "logFile") && IsFlag(m, "usesStdio") && IsFlag(m, "usesPty") && IsText(m, "ptyName")
    case KVsock => IsUint32(m, "port") && IsText(m, "socketURL") && IsFlag(m, "listen")
    case KInput => IsText(m, "inputType")
    case KGpu => IsFlag(m, "usesGUI") && IsInt64(m, "width") && IsInt64(m, "height")
    case KBalloon => true
    case KNbd =>
      && IsText(m, "devName") && IsFlag(m, "readOnly") && IsText(m, "uri") && IsText(m, "DeviceIdentifier")
      && IsInt64(m, "Timeout") && IsText(m, "SynchronizationMode")
  }

  function DiskAt(m: Fields): DiskView {
    DiskView(TextAt(m, "devName"), FlagAt(m, "readOnly"), TextAt(m, "imagePath"), TextAt(m, "type"))
  }

  /** The magic packet is on unless it is switched off, but only with a socket path. */
  predicate MagicAt(m: Fields) {
    TextAt(m, "unixSocketPath") != "" && !(Has(m, "vfkitMagic") && m["vfkitMagic"] == Bool(false))
  }

  function NetAt(m: Fields): NetView {
    NetView(FlagAt(m, "nat"),
            if TextAt(m, "macAddress") == "" then [] else ParseMac(TextAt(m, "macAddress")).GetOr([]),
            if Has(m, "socket") then Some(NoDescriptor) else None, TextAt(m, "unixSocketPath"), MagicAt(m))
  }

  function DeviceAt(kind: DeviceKind, m: Fields): Device {
    match kind
    case KRosetta =>
      Rosetta(RosettaView(TextAt(m, "mountTag"), FlagAt(m, "installRosetta"), FlagAt(m, "ignoreIfMissing")))
    case KNvme => Nvme(DiskAt(m))
    case KUsb => Usb(DiskAt(m))
    case KBlk => Blk(BlkView(DiskAt(m), TextAt(m, "deviceIdentifier")))
    case KFs => Fs(FsView(TextAt(m, "mountTag"), TextAt(m, "sharedDir")))
    case KNet => Net(NetAt(m))
    case KRng => Rng
    case KSerial =>
      Serial(SerialView(TextAt(m, "logFile"), FlagAt(m, "usesStdio"), FlagAt(m, "usesPty"), TextAt(m, "ptyName")))
    case KVsock => Vsock(VsockView(Uint32At(m, "port", 0), TextAt(m, "socketURL"), FlagAt(m, "listen")))
    case KInput => Input(InputView(TextAt(m, "inputType")))
    case KGpu => Gpu(GpuView(FlagAt(m, "usesGUI"), Int64At(m, "width"), Int64At(m, "height")))
    case KBalloon => Balloon
    case KNbd =>
      var storage := NbdStorageView(TextAt(m, "devName"), FlagAt(m, "readOnly"), TextAt(m, "uri"));
      Nbd(NbdView(storage, TextAt(m, "DeviceIdentifier"), Int64At(m, "Timeout"), TextAt(m, "SynchronizationMode")))
  }

  lemma DiskRead(m: Fields)
    ensures ReadDisk(m) == if TypedDisk(m) then Some(DiskAt(m)) else None
  {
    ReadsEntry(m, "devName");
    ReadsEntry(m, "readOnly");
    ReadsEntry(m, "imagePath");
    ReadsEntry(m, "type");
  }

  lemma NetRead(m: Fields)
    ensures ReadNet(m) == if Typed(KNet, m) then Some(NetAt(m)) else None
  {
    ReadsEntry(m, "nat");
    ReadsEntry(m, "unixSocketPath");
    ReadsEntry(m, "vfkitMagic");
    ReadsEntry(m, "macAddress");
    assert SocketField(m)
        == if !IsObject(m, "socket") then None else Some(if Has(m, "socket") then Some(NoDescriptor) else None);
  }

  lemma NbdRead(m: Fields)
    ensures Tagged(ReadNbd(m), d => Nbd(d)) == if Typed(KNbd, m) then Some(DeviceAt(KNbd, m)) else None
  {
    ReadsEntry(m, "devName");
    ReadsEntry(m, "readOnly");
    ReadsEntry(m, "uri");
    ReadsEntry(m, "DeviceIdentifier");
    ReadsEntry(m, "Timeout");
    ReadsEntry(m, "SynchronizationMode");
  }

  lemma SerialRead(m: Fields)
    ensures Tagged(ReadSerial(m), d => Serial(d)) == if Typed(KSerial, m) then Some(DeviceAt(KSerial, m)) else None
  {
    ReadsEntry(m, "logFile");
    ReadsEntry(m, "usesStdio");
    ReadsEntry(m, "usesPty");
    ReadsEntry(m, "ptyName");
  }

  lemma FieldsRead(kind: DeviceKind, m: Fields)
    ensures ReadFields(kind, m) == if Typed(kind, m) then Some(DeviceAt(kind, m)) else None
  {
    match kind
    case KRosetta =>
      ReadsEntry(m, "mountTag");
      ReadsEntry(m, "installRosetta");
      ReadsEntry(m, "ignoreIfMissing");
    case KNvme => DiskRead(m);
    case KUsb => DiskRead(m);
    case KBlk =>
      DiskRead(m);
      ReadsEntry(m, "deviceIdentifier");
    case KFs =>
      ReadsEntry(m, "mountTag");
      ReadsEntry(m, "sharedDir");
    case KNet => NetRead(m);
    case KRng =>
    case KSerial => SerialRead(m);
    case KVsock =>
      ReadsNumber(m, "port", 0, 0);
      ReadsEntry(m, "socketURL");
      ReadsEntry(m, "listen");
    case KInput => ReadsEntry(m, "inputType");
    case KGpu =>
      ReadsEntry(m, "usesGUI");
      ReadsEntry(m, "width");
      ReadsEntry(m, "height");
    case KBalloon =>
    case KNbd => NbdRead(m);
  }

  predicate IsDevice(j: Json) {
    && j.Obj? && "kind" in j.fields && j.fields["kind"].Str? && j.fields["kind"].text in TAGS
    && Typed(TAGS[j.fields["kind"].text], j.fields)
  }

  function DeviceIn(j: Json): Device
    requires IsDevice(j)
  {
    DeviceAt(TAGS[j.fields["kind"].text], j.fields)
  }

  lemma TagsMeaning(tag: string)
    ensures KindOfTag(tag) == if tag in TAGS then Some(TAGS[tag]) else None
  {
  }

  /** A document is read as a device exactly when it is an object with a known tag whose entries are typed. */
  lemma DeviceRead(j: Json)
    ensures ReadDevice(j) == if IsDevice(j) then Some(DeviceIn(j)) else None
  {
    if j.Obj? {
      ReadsEntry(j.fields, "kind");
      if StrField(j.fields, "kind", "").Some? {
        var tag := StrField(j.fields, "kind", "").value;
        TagsMeaning(tag);
        if tag in TAGS { FieldsRead(TAGS[tag], j.fields); }
      }
    }
  }

  predicate AreDevices(items: seq<Json>) { forall i :: 0 <= i < |items| ==> IsDevice(items[i]) }

  function DevicesOf(items: seq<Json>): seq<Device>
    requires AreDevices(items)
  {
    seq(|items|, i requires 0 <= i < |items| => DeviceIn(items[i]))
  }

  /** An array is read exactly when each of its items is, and keeps their order. */
  lemma {:induction false} DeviceListRead(items: seq<Json>)
    ensures ReadDeviceList(items) == if AreDevices(items) then Some(DevicesOf(items)) else None
  {
    if items != [] {
      var rest := items[1..];
      DeviceRead(items[0]);
      DeviceListRead(rest);
      assert forall i :: 0 <= i < |rest| ==> rest[i] == items[i+1];
      if IsDevice(items[0]) && AreDevices(rest) {
        forall i | 0 <= i < |items| ensures IsDevice(items[i]) {
          if i > 0 { assert IsDevice(rest[i-1]); }
        }
        assert DevicesOf(items) == [DeviceIn(items[0])] + DevicesOf(rest);
      }
    } else {
      assert DevicesOf(items) == [];
    }
  }

  // ---------- The other parts ----------

  predicate IsEfi(j: Json) {
    && j.Obj? && "kind" in j.fields && j.fields["kind"] == Str("efiBootloader")
    && IsText(j.fields, "efiVariableStorePath") && IsFlag(j.fields, "createVariableStore")
  }

  predicate IsLinux(j: Json) {
    && j.Obj? && "kind" in j.fields && j.fields["kind"] == Str("linuxBootloader")
    && IsText(j.fields, "vmlinuzPath") && IsText(j.fields, "kernelCmdLine") && IsText(j.fields, "initrdPath")
  }

  function BootloaderOf(j: Json): Option<Bootloader> {
    if IsEfi(j) then
      Some(Efi(EfiView(TextAt(j.fields, "efiVariableStorePath"), FlagAt(j.fields, "createVariableStore"))))
    else if IsLinux(j) then
      var kernel, initrd := TextAt(j.fields, "vmlinuzPath"), TextAt(j.fields, "initrdPath");
      Some(Linux(LinuxView(kernel, TextAt(j.fields, "kernelCmdLine"), initrd)))
    else None
  }

  lemma BootloaderRead(j: Json)
    ensures ReadBootloader(j) == BootloaderOf(j)
  {
    if j.Obj? {
      var m := j.fields;
      ReadsEntry(m, "kind");
      ReadsEntry(m, "efiVariableStorePath");
      ReadsEntry(m, "createVariableStore");
      ReadsEntry(m, "vmlinuzPath");
      ReadsEntry(m, "kernelCmdLine");
      ReadsEntry(m, "initrdPath");
    }
  }

  predicate IsIgnition(j: Json) { j.Obj? && IsText(j.fields, "configPath") && IsText(j.fields, "socketPath") }

  lemma IgnitionRead(j: Json)
    requires j != Null
    ensures ReadIgnition(j)
         == if IsIgnition(j) then Some(Ignition(TextAt(j.fields, "configPath"), TextAt(j.fields, "socketPath"), 0))
            else None
  {
    if j.Obj? {
      ReadsEntry(j.fields, "configPath");
      ReadsEntry(j.fields, "socketPath");
    }
  }

  predicate IsTimeSync(j: Json) { j.Obj? && IsUint32(j.fields, "vsockPort") }

  lemma TimeSyncRead(start: Option<TimeSync>, j: Json)
    requires j != Null
    ensures ReadTimeSync(start, j)
         == if !IsTimeSync(j) then None
            else Some(TimeSync(Uint32At(j.fields, "vsockPort", if start.Some? then start.value.vsockPort else 0)))
  {
    if j.Obj? { ReadsNumber(j.fields, "vsockPort", if start.Some? then start.value.vsockPort else 0, 0); }
  }

  // ---------- Machines ----------

  /** Each part a machine knows is well formed, except that the ignition may be anything. */
  predicate IsMachine(doc: Fields) {
    && IsUint64(doc, "vcpus") && IsUint64(doc, "memoryBytes")
    && (Has(doc, "bootloader") ==> BootloaderOf(doc["bootloader"]).Some?)
    && (Has(doc, "devices") ==> doc["devices"].Arr? && AreDevices(doc["devices"].items))
    && (Has(doc, "timesync") ==> IsTimeSync(doc["timesync"]))
  }

  function TimeSyncAt(start: Option<TimeSync>, doc: Fields): Option<TimeSync>
    requires Has(doc, "timesync") ==> IsTimeSync(doc["timesync"])
  {
    if !Has(doc, "timesync") then start
    else
      Some(TimeSync(Uint32At(doc["timesync"].fields, "vsockPort", if start.Some? then start.value.vsockPort else 0)))
  }

  function IgnitionAt(start: Option<Ignition>, doc: Fields): Option<Ignition> {
    if Has(doc, "ignition") && IsIgnition(doc["ignition"]) then
      Some(Ignition(TextAt(doc["ignition"].fields, "configPath"), TextAt(doc["ignition"].fields, "socketPath"), 0))
    else start
  }

  /** The machine a document makes of start: parts it does not mention stay, and so does nested always. */
  function MachineAt(start: VM, doc: Fields): VM
    requires IsMachine(doc)
  {
    VM(Uint64At(doc, "vcpus", start.vcpus), Uint64At(doc, "memoryBytes", start.memory),
       if Has(doc, "bootloader") then BootloaderOf(doc["bootloader"]) else start.bootloader,
       if Has(doc, "devices") then DevicesOf(doc["devices"].items) else start.devices,
       TimeSyncAt(start.timesync, doc), IgnitionAt(start.ignition, doc), start.nested)
  }

  /** A document is read as a machine exactly when its parts are well formed, and each part is what its entry says. */
  lemma MachineRead(start: VM, doc: Fields)
    ensures Described(start, doc) == if IsMachine(doc) then Some(MachineAt(start, doc)) else None
  {
    ReadsNumber(doc, "vcpus", 0, start.vcpus);
    ReadsNumber(doc, "memoryBytes", 0, start.memory);
    if Has(doc, "bootloader") { BootloaderRead(doc["bootloader"]); }
    if Has(doc, "devices") && doc["devices"].Arr? { DeviceListRead(doc["devices"].items); }
    if Has(doc, "timesync") { TimeSyncRead(start.timesync, doc["timesync"]); }
    if Has(doc, "ignition") { IgnitionRead(doc["ignition"]); }
  }

  // ---------- Which entries are written ----------

  function Key(present: bool, key: string): set<string> { if present then {key} else {} }

  function DiskKeys(d: DiskView): set<string> {
    {"kind", "devName"} + Key(d.readOnly, "readOnly") + Key(d.imagePath != "", "imagePath")
    + Key(d.backend != "", "type")
  }

  /** Entries that would be empty or false are left out, for some of the settings. */
  function DeviceKeys(d: Device): set<string> {
    match d
    case Rosetta(_) => {"kind", "mountTag", "installRosetta", "ignoreIfMissing"}
    case Nvme(v) => DiskKeys(v)
    case Usb(v) => DiskKeys(v)
    case Blk(v) => DiskKeys(v.disk) + Key(v.deviceIdentifier != "", "deviceIdentifier")
    case Fs(_) => {"kind", "mountTag", "sharedDir"}
    case Net(v) =>
      {"kind", "nat"} + Key(v.socket.Some?, "socket") + Key(v.unixSocketPath != "", "unixSocketPath")
      + Key(v.vfkitMagic, "vfkitMagic") + Key(v.mac != [], "macAddress")
    case Rng => {"kind"}
    case Serial(v) =>
      {"kind"} + Key(v.logFile != "", "logFile") + Key(v.usesStdio, "usesStdio") + Key(v.usesPty, "usesPty")
      + Key(v.ptyName != "", "ptyName")
    case Vsock(v) => {"kind", "port", "socketURL"} + Key(v.listen, "listen")
    case Input(_) => {"kind", "inputType"}
    case Gpu(_) => {"kind", "usesGUI", "width", "height"}
    case Balloon => {"kind"}
    case Nbd(v) =>
      {"kind", "devName", "DeviceIdentifier", "Timeout", "SynchronizationMode"}
      + Key(v.storage.readOnly, "readOnly") + Key(v.storage.uri != "", "uri")
  }

  lemma DiskWritten(d: DiskView, kind: DeviceKind)
    ensures DiskFields(Tag(kind), d).Keys == DiskKeys(d)
  {
  }

  lemma NetWritten(d: NetView)
    ensures NetFields(Tag(KNet), d).Keys == DeviceKeys(Net(d))
  {
    MacStringShape(d.mac);
  }

  lemma NbdWritten(d: NbdView)
    ensures NbdFields(Tag(KNbd), d).Keys == DeviceKeys(Nbd(d))
  {
  }

  lemma SerialWritten(d: SerialView)
    ensures SerialFields(Tag(KSerial), d).Keys == DeviceKeys(Serial(d))
  {
  }

  lemma KeysWritten(d: Device)
    ensures WriteDevice(d).fields.Keys == DeviceKeys(d)
  {
    match d
    case Nvme(v) => DiskWritten(v, KNvme);
    case Usb(v) => DiskWritten(v, KUsb);
    case Blk(v) => DiskWritten(v.disk, KBlk);
    case Net(v) => NetWritten(v);
    case Serial(v) => SerialWritten(v);
    case Nbd(v) => NbdWritten(v);
    case _ =>
  }

  lemma DeviceWritten(d: Device)
    ensures WriteDevice(d).Obj? && WriteDevice(d).fields.Keys == DeviceKeys(d)
    ensures "kind" in WriteDevice(d).fields
    ensures var tag := WriteDevice(d).fields["kind"];
            tag.Str? && tag.text in TAGS && TAGS[tag.text] == KindOfDevice(d)
  {
    KeysWritten(d);
    KindFieldKept(Tag(KindOfDevice(d)), d);
    TagsMeaning(KindTag(KindOfDevice(d)));
    KindTagRead(KindOfDevice(d));
  }

  /** nested is written when set, although it is never read. */
  lemma MachineWritten(vm: VM)
    ensures WriteVm(vm).Keys
         == {"vcpus", "memoryBytes", "bootloader"} + Key(vm.devices != [], "devices")
            + Key(vm.timesync.Some?, "timesync") + Key(vm.ignition.Some?, "ignition") + Key(vm.nested, "nested")
  {
  }
}
