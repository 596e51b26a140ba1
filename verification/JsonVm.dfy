/** Whole virtual machines in JSON: the key order of a document is irrelevant, and which machines survive it. */
module JsonVm {
  import opened Text
  import opened Options
  import opened Devices
  import opened Bootloaders
  import opened Config
  import opened Json

  const FRESH_VM := VM(0, 0, None, [], None, None, false)

  // ---------- Writing ----------

  function WriteVm(vm: VM): Fields {
    var m := map["vcpus" := Num(vm.vcpus)]["memoryBytes" := Num(vm.memory)]
                ["bootloader" := if vm.bootloader.Some? then WriteBootloader(vm.bootloader.value) else Null];
    var n := if vm.devices == [] then m else m["devices" := Arr(WriteDeviceList(vm.devices))];
    var o := if vm.timesync.Some? then n["timesync" := WriteTimeSync(vm.timesync.value)] else n;
    var p := if vm.ignition.Some? then o["ignition" := WriteIgnition(vm.ignition.value)] else o;
    PutBool(p, "nested", vm.nested)
  }

  // ---------- Reading, one key at a time ----------

  function KeyStep(vm: VM, entry: (string, Json)): Option<VM> {
    var (key, raw) := entry;
    if raw == Null then Some(vm)
    else
      match key
      case "vcpus" =>
        if raw.Num? && 0 <= raw.number < TWO_TO_THE_64 then Some(vm.(vcpus := raw.number)) else None
      case "memoryBytes" =>
        if raw.Num? && 0 <= raw.number < TWO_TO_THE_64 then Some(vm.(memory := raw.number)) else None
      case "bootloader" =>
        if ReadBootloader(raw).Some? then Some(vm.(bootloader := ReadBootloader(raw))) else None
      case "timesync" =>
        if ReadTimeSync(vm.timesync, raw).Some? then Some(vm.(timesync := ReadTimeSync(vm.timesync, raw))) else None
      case "devices" => (
        match ReadDevicesField(raw)
        case None => None
        case Some(devices) => Some(vm.(devices := devices)))
      case "ignition" =>
        // a malformed ignition section is ignored
        if ReadIgnition(raw).Some? then Some(vm.(ignition := ReadIgnition(raw))) else Some(vm)
      case _ => Some(vm)
  }

  function Entries(doc: Fields, order: seq<string>): seq<(string, Json)>
    requires forall i :: 0 <= i < |order| ==> order[i] in doc
  {
    seq(|order|, i requires 0 <= i < |order| => (order[i], doc[order[i]]))
  }

  /** An iteration order of a document visits every key exactly once. */
  ghost predicate IsOrder(order: seq<string>, doc: Fields) {
    && (forall i :: 0 <= i < |order| ==> order[i] in doc)
    && (forall k :: k in doc ==> k in order)
    && (forall i, j :: 0 <= i < j < |order| ==> order[i] != order[j])
  }

  // ---------- What a document describes, without any order ----------

  function DevicesIn(start: seq<Device>, doc: Fields): Option<seq<Device>> {
    if !Present(doc, "devices") then Some(start) else ReadDevicesField(doc["devices"])
  }

  function BootloaderIn(start: Option<Bootloader>, doc: Fields): Option<Option<Bootloader>> {
    if !Present(doc, "bootloader") then Some(start)
    else if ReadBootloader(doc["bootloader"]).Some? then Some(ReadBootloader(doc["bootloader"])) else None
  }

  function TimeSyncIn(start: Option<TimeSync>, doc: Fields): Option<Option<TimeSync>> {
    if !Present(doc, "timesync") then Some(start)
    else if ReadTimeSync(start, doc["timesync"]).Some? then Some(ReadTimeSync(start, doc["timesync"])) else None
  }

  function IgnitionIn(start: Option<Ignition>, doc: Fields): Option<Ignition> {
    if Present(doc, "ignition") && ReadIgnition(doc["ignition"]).Some? then ReadIgnition(doc["ignition"]) else start
  }

  /** Reading doc into start. */
  function Described(start: VM, doc: Fields): Option<VM> {
    match (Uint64Field(doc, "vcpus", start.vcpus), Uint64Field(doc, "memoryBytes", start.memory),
           BootloaderIn(start.bootloader, doc), DevicesIn(start.devices, doc), TimeSyncIn(start.timesync, doc))
    case (Some(vcpus), Some(memory), Some(bootloader), Some(devices), Some(timesync)) =>
      Some(VM(vcpus, memory, bootloader, devices, timesync, IgnitionIn(start.ignition, doc), start.nested))
    case _ => None
  }

  /** A key says nothing about the parts read under other keys. */
  lemma OtherPartsSame(start: VM, doc: Fields, key: string, raw: Json)
    requires key !in doc
    ensures var more := doc[key := raw];
            && (key != "vcpus" ==> Uint64Field(more, "vcpus", start.vcpus) == Uint64Field(doc, "vcpus", start.vcpus))
            && (key != "memoryBytes" ==>
                  Uint64Field(more, "memoryBytes", start.memory) == Uint64Field(doc, "memoryBytes", start.memory))
            && (key != "bootloader" ==> BootloaderIn(start.bootloader, more) == BootloaderIn(start.bootloader, doc))
            && (key != "devices" ==> DevicesIn(start.devices, more) == DevicesIn(start.devices, doc))
            && (key != "timesync" ==> TimeSyncIn(start.timesync, more) == TimeSyncIn(start.timesync, doc))
            && (key != "ignition" ==> IgnitionIn(start.ignition, more) == IgnitionIn(start.ignition, doc))
  {
  }

  lemma NumberKeyStep(start: VM, doc: Fields, key: string, raw: Json)
    requires key !in doc && (key == "vcpus" || key == "memoryBytes")
    ensures Described(start, doc[key := raw]) == Then(Described(start, doc), KeyStep, (key, raw))
  {
    OtherPartsSame(start, doc, key, raw);
  }

  lemma PartKeyStep(start: VM, doc: Fields, key: string, raw: Json)
    requires key !in doc && (key == "bootloader" || key == "devices")
    ensures Described(start, doc[key := raw]) == Then(Described(start, doc), KeyStep, (key, raw))
  {
    OtherPartsSame(start, doc, key, raw);
  }

  lemma ServiceKeyStep(start: VM, doc: Fields, key: string, raw: Json)
    requires key !in doc && (key == "timesync" || key == "ignition")
    ensures Described(start, doc[key := raw]) == Then(Described(start, doc), KeyStep, (key, raw))
  {
    OtherPartsSame(start, doc, key, raw);
  }

  /** One more key in a document is one more step of the reader, whatever was read before. */
  lemma DescribedStep(start: VM, doc: Fields, key: string, raw: Json)
    requires key !in doc
    ensures Described(start, doc[key := raw]) == Then(Described(start, doc), KeyStep, (key, raw))
  {
    match key
    case "vcpus" => NumberKeyStep(start, doc, key, raw);
    case "memoryBytes" => NumberKeyStep(start, doc, key, raw);
    case "bootloader" => PartKeyStep(start, doc, key, raw);
    case "devices" => PartKeyStep(start, doc, key, raw);
    case "timesync" => ServiceKeyStep(start, doc, key, raw);
    case "ignition" => ServiceKeyStep(start, doc, key, raw);
    case _ => OtherPartsSame(start, doc, key, raw);
  }

  function Restrict(doc: Fields, keys: seq<string>): Fields { map k | k in doc && k in keys :: doc[k] }

  lemma {:induction false} ReadInOrder(start: VM, doc: Fields, order: seq<string>)
    requires forall i :: 0 <= i < |order| ==> order[i] in doc
    requires forall i, j :: 0 <= i < j < |order| ==> order[i] != order[j]
    ensures Fold(KeyStep, start, Entries(doc, order)) == Described(start, Restrict(doc, order))
  {
    if order == [] {
      assert Restrict(doc, order) == map[];
    } else {
      var a, key := order[..|order|-1], order[|order|-1];
      ReadInOrder(start, doc, a);
      assert order == a + [key];
      assert Entries(doc, order) == Entries(doc, a) + [(key, doc[key])];
      FoldSnoc(KeyStep, start, Entries(doc, a), (key, doc[key]));
      assert Restrict(doc, order) == Restrict(doc, a)[key := doc[key]];
      DescribedStep(start, Restrict(doc, a), key, doc[key]);
    }
  }

  /** For every document and every iteration order of its keys, the reader fails alike or yields the same machine. */
  lemma KeyOrderIrrelevant(start: VM, doc: Fields, order: seq<string>)
    requires IsOrder(order, doc)
    ensures Fold(KeyStep, start, Entries(doc, order)) == Described(start, doc)
  {
    ReadInOrder(start, doc, order);
    assert Restrict(doc, order) == doc;
  }

  /** A malformed ignition section reads like none at all. */
  lemma MalformedIgnitionIgnored(start: VM, doc: Fields, raw: Json)
    requires ReadIgnition(raw).None?
    ensures Described(start, doc["ignition" := raw]) == Described(start, doc["ignition" := Null])
  {
    var a, b := doc["ignition" := raw], doc["ignition" := Null];
    assert forall k :: k != "ignition" ==> (Present(a, k) <==> Present(b, k)) && (k in doc ==> a[k] == b[k]);
    assert Uint64Field(a, "vcpus", start.vcpus) == Uint64Field(b, "vcpus", start.vcpus);
    assert Uint64Field(a, "memoryBytes", start.memory) == Uint64Field(b, "memoryBytes", start.memory);
    assert BootloaderIn(start.bootloader, a) == BootloaderIn(start.bootloader, b);
    assert TimeSyncIn(start.timesync, a) == TimeSyncIn(start.timesync, b);
    assert DevicesIn(start.devices, a) == DevicesIn(start.devices, b);
  }

  /** UnmarshalJSON: the keys are visited in an arbitrary order, and reading stops at the first failure. */
  method UnmarshalJSON(vm: VirtualMachine, doc: Fields) returns (ok: bool)
    modifies vm
    ensures Described(old(vm.View()), doc) == if ok then Some(vm.View()) else None
  {
    var remaining := doc.Keys;
    ghost var done: Fields := map[];
    while remaining != {}
      invariant remaining <= doc.Keys && done.Keys == doc.Keys - remaining
      invariant forall k :: k in done ==> done[k] == doc[k]
      invariant Described(old(vm.View()), done) == Some(vm.View())
      decreases |remaining|
    {
      var idx :| idx in remaining;
      var rawMsg := doc[idx];
      DescribedStep(old(vm.View()), done, idx, rawMsg);
      var step := ReadKey(vm, idx, rawMsg);
      if !step {
        StaysRefused(old(vm.View()), done[idx := rawMsg], doc);
        return false;
      }
      remaining, done := remaining - {idx}, done[idx := rawMsg];
    }
    assert done == doc;
    return true;
  }

  /** The body of the key loop. */
  method ReadKey(vm: VirtualMachine, idx: string, rawMsg: Json) returns (ok: bool)
    modifies vm
    ensures KeyStep(old(vm.View()), (idx, rawMsg)) == if ok then Some(vm.View()) else None
  {
    if rawMsg == Null { return true; }
    match idx {
    case "vcpus" =>
      if !rawMsg.Num? || rawMsg.number < 0 || rawMsg.number >= TWO_TO_THE_64 { return false; }
      vm.vcpus := rawMsg.number;
    case "memoryBytes" =>
      if !rawMsg.Num? || rawMsg.number < 0 || rawMsg.number >= TWO_TO_THE_64 { return false; }
      vm.memory := rawMsg.number;
    case "bootloader" =>
      var bootloader := ReadBootloader(rawMsg);
      if bootloader.None? { return false; }
      vm.bootloader := bootloader;
    case "timesync" =>
      var timesync := ReadTimeSync(vm.timesync, rawMsg);
      if timesync.None? { return false; }
      vm.timesync := timesync;
    case "devices" =>
      if !rawMsg.Arr? { return false; }
      var devices := UnmarshalDevices(rawMsg.items);
      if devices.None? { return false; }
      vm.devices := devices.value;
    case "ignition" =>
      var ignition := ReadIgnition(rawMsg);
      if ignition.Some? { vm.ignition := ignition; }
    case _ =>
    }
    return true;
  }

  /** Adding keys to a refused document does not make it acceptable. */
  lemma StaysRefused(start: VM, part: Fields, doc: Fields)
    requires part.Keys <= doc.Keys && forall k :: k in part ==> part[k] == doc[k]
    requires Described(start, part).None?
    ensures Described(start, doc).None?
  {
    assert forall k :: Present(part, k) ==> Present(doc, k);
  }

  // ---------- Round trips ----------

  /** What a caller can check before writing a machine to JSON. */
  predicate VmJsonSurvives(vm: VM) {
    && !vm.nested
    && (vm.bootloader.Some? ==> !vm.bootloader.value.MacOS?)
    && (vm.ignition.Some? ==> vm.ignition.value.vsockPort == 0)
    && forall i :: 0 <= i < |vm.devices| ==> DeviceJsonSurvives(vm.devices[i])
  }

  lemma WrittenFields(vm: VM)
    ensures var m := WriteVm(vm);
            && Uint64Field(m, "vcpus", 0) == Some(vm.vcpus)
            && Uint64Field(m, "memoryBytes", 0) == Some(vm.memory)
            && TimeSyncIn(None, m) == Some(vm.timesync)
  {
    if vm.timesync.Some? {
      var t := vm.timesync.value;
      assert Uint32Field(WriteTimeSync(t).fields, "vsockPort", 0) == Some(t.vsockPort);
    }
  }

  lemma WrittenBootloader(vm: VM)
    ensures BootloaderIn(None, WriteVm(vm)) == Some(vm.bootloader)
       <==> (vm.bootloader.Some? ==> !vm.bootloader.value.MacOS?)
  {
    if vm.bootloader.Some? { BootloaderJson(vm.bootloader.value); }
  }

  lemma WrittenDevices(vm: VM)
    ensures DevicesIn([], WriteVm(vm)) == Some(vm.devices)
       <==> forall i :: 0 <= i < |vm.devices| ==> DeviceJsonSurvives(vm.devices[i])
  {
    DeviceListJson(vm.devices);
    if vm.devices != [] {
      assert Present(WriteVm(vm), "devices") && WriteVm(vm)["devices"] == Arr(WriteDeviceList(vm.devices));
    }
  }

  lemma WrittenIgnition(vm: VM)
    ensures IgnitionIn(None, WriteVm(vm)) == vm.ignition <==> (vm.ignition.Some? ==> vm.ignition.value.vsockPort == 0)
  {
    if vm.ignition.Some? { IgnitionJson(vm.ignition.value); }
  }

  /** A machine comes back from its own document, devices in order, exactly when it satisfies VmJsonSurvives: no
      network device holds a descriptor, and the magic packet is on just for those with a socket path. */
  lemma VmJsonRoundTrips(vm: VM)
    ensures Described(FRESH_VM, WriteVm(vm)) == Some(vm) <==> VmJsonSurvives(vm)
  {
    WrittenFields(vm);
    WrittenBootloader(vm);
    WrittenDevices(vm);
    WrittenIgnition(vm);
  }

  // ---------- Reading, writing and reading again ----------

  /** A network device whose magic packet was switched off explicitly. */
  predicate MagicOff(d: Device) { d.Net? && d.net.unixSocketPath != "" && !d.net.vfkitMagic }

  lemma {:induction false} ReadListMeaning(items: seq<Json>)
    requires ReadDeviceList(items).Some?
    ensures var devices := ReadDeviceList(items).value;
            forall i :: 0 <= i < |devices| ==> (DeviceJsonSurvives(devices[i]) <==> !MagicOff(devices[i]))
  {
    if items != [] {
      var d := ReadDevice(items[0]).value;
      if d.Net? { ReadDeviceMeaning(items[0]); }
      ReadListMeaning(items[1..]);
    }
  }

  lemma ReadMeaning(doc: Fields)
    requires Described(FRESH_VM, doc).Some?
    ensures var vm := Described(FRESH_VM, doc).value;
            !vm.nested && (vm.bootloader.Some? ==> !vm.bootloader.value.MacOS?)
            && (vm.ignition.Some? ==> vm.ignition.value.vsockPort == 0)
  {
  }

  /** A machine read from any document and written again reads back unchanged exactly when no network device in
      it has the magic packet off: the writer omits the field, and the reader then takes it as on. */
  lemma JsonReadWriteRead(doc: Fields)
    requires Described(FRESH_VM, doc).Some?
    ensures var vm := Described(FRESH_VM, doc).value;
            Described(FRESH_VM, WriteVm(vm)) == Some(vm) <==> forall d :: d in vm.devices ==> !MagicOff(d)
  {
    var vm := Described(FRESH_VM, doc).value;
    ReadMeaning(doc);
    if Present(doc, "devices") { ReadListMeaning(doc["devices"].items); }
    VmJsonRoundTrips(vm);
  }

  /** Such documents exist. */
  lemma MagicOffIsLost()
    ensures var d := Net(NetView(false, [], None, "/run/net.sock", false));
            ReadDevice(WriteDevice(d)) == Some(Net(NetView(false, [], None, "/run/net.sock", true)))
  {
    var v := NetView(false, [], None, "/run/net.sock", false);
    var m := NetFields(Tag(KNet), v);
    KindTagRead(KNet);
    assert StrField(m, "kind", "") == Some(KindTag(KNet));
    assert BoolField(m, "nat") == Some(false);
    assert StrField(m, "unixSocketPath", "") == Some("/run/net.sock");
    assert StrField(m, "macAddress", "") == Some("") && SocketField(m) == Some(None);
    assert !Present(m, "vfkitMagic");
  }
}
