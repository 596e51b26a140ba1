/** When the order of a device's options matters, and why reading a list in two passes is reading it once. */
module OptionOrder {
  import opened Text
  import opened Options
  import opened Devices
  import opened DeviceAcceptance
  import NetAcceptance

  /** The setting an option writes; several keys write the same one. */
  function SettingOf(kind: DeviceKind, key: string): string {
    match kind
    case KNet => if key == "path" then "unixSocketPath" else key
    case KVsock => if key == "listen" then "connect" else key
    case KInput => if key == "pointing" then "keyboard" else key
    case _ => key
  }

  /** What a fitting option does to its setting: port=1 and port=01 do the same, and so do install and install=yes. */
  datatype Effect = Words(text: string) | Number(number: int) | Address(mac: seq<Byte>)

  function EffectOf(kind: DeviceKind, o: Opt): Effect {
    match kind
    case KRosetta => Words(if o.key == "mountTag" then o.value else "")
    case KNet =>
      if o.key == "mac" then Address(ParseMac(o.value).GetOr([]))
      else if o.key == "fd" then Number(ParseInt(o.value, MAX_INT64).GetOr(0))
      else Words(o.value)
    case KSerial => Words(if o.key == "logFilePath" then o.value else "")
    case KVsock =>
      if o.key == "port" then Number(ParseUint(o.value, MAX_UINT32).GetOr(0))
      else if IsDirection(o) then Words(o.key)
      else Words(o.value)
    case KInput => Words(o.key)
    case KGpu => Number(ParseInt(o.value, MAX_INT64).GetOr(0))
    case KNbd => if o.key == "timeout" then Number(ParseInt(o.value, MAX_INT32).GetOr(0)) else Words(o.value)
    case _ => Words(o.value)
  }

  /** The effect of the last option for a setting. */
  function LastEffect(kind: DeviceKind, setting: string, opts: seq<Opt>): Option<Effect> {
    if opts == [] then None
    else
      var o := opts[|opts|-1];
      if SettingOf(kind, o.key) == setting then Some(EffectOf(kind, o)) else LastEffect(kind, setting, opts[..|opts|-1])
  }

  lemma EffectSnoc(kind: DeviceKind, setting: string, opts: seq<Opt>, o: Opt)
    ensures LastEffect(kind, setting, opts + [o])
         == if SettingOf(kind, o.key) == setting then Some(EffectOf(kind, o)) else LastEffect(kind, setting, opts)
  {
    assert (opts + [o])[..|opts|] == opts;
  }

  lemma {:induction false} EffectExists(kind: DeviceKind, setting: string, opts: seq<Opt>) returns (o: Opt)
    ensures LastEffect(kind, setting, opts).None? ==> forall x :: x in opts ==> SettingOf(kind, x.key) != setting
    ensures LastEffect(kind, setting, opts).Some? ==>
      o in opts && SettingOf(kind, o.key) == setting && LastEffect(kind, setting, opts) == Some(EffectOf(kind, o))
  {
    o := Opt("", "");
    if opts != [] {
      var a, last := opts[..|opts|-1], opts[|opts|-1];
      assert opts == a + [last];
      o := EffectExists(kind, setting, a);
      if SettingOf(kind, last.key) == setting { o := last; }
    }
  }

  lemma {:induction false} EffectOfValue(kind: DeviceKind, key: string, opts: seq<Opt>)
    requires forall o: Opt :: SettingOf(kind, o.key) == key <==> o.key == key
    ensures LastEffect(kind, key, opts)
         == match ValueOf(key, opts) case None => None case Some(v) => Some(EffectOf(kind, Opt(key, v)))
  {
    if opts != [] {
      var o := opts[|opts|-1];
      assert o.key == key ==> o == Opt(key, o.value);
      EffectOfValue(kind, key, opts[..|opts|-1]);
    }
  }

  lemma {:induction false} EffectOfLast(kind: DeviceKind, setting: string, p: Opt -> bool, opts: seq<Opt>)
    requires forall o: Opt :: SettingOf(kind, o.key) == setting <==> p(o)
    ensures LastEffect(kind, setting, opts)
         == match NetAcceptance.Last(p, opts) case None => None case Some(o) => Some(EffectOf(kind, o))
  {
    if opts != [] { EffectOfLast(kind, setting, p, opts[..|opts|-1]); }
  }

  // ---------- A device is the effects of its last options ----------

  predicate Same(kind: DeviceKind, setting: string, p: seq<Opt>, q: seq<Opt>) {
    LastEffect(kind, setting, p) == LastEffect(kind, setting, q)
  }

  /** The settings of each kind. */
  function Settings(kind: DeviceKind): set<string> {
    match kind
    case KRosetta => {"mountTag", "install", "ignore-if-missing"}
    case KNvme => {"path", "type", "readonly"}
    case KUsb => {"path", "type", "readonly"}
    case KBlk => {"path", "type", "readonly", "deviceId"}
    case KFs => {"sharedDir", "mountTag"}
    case KNet => {"nat", "mac", "fd", "unixSocketPath", "type", "vfkitMagic", "offloading"}
    case KSerial => {"logFilePath", "stdio", "pty"}
    case KVsock => {"socketURL", "port", "connect"}
    case KInput => {"keyboard"}
    case KGpu => {"width", "height"}
    case KNbd => {"uri", "readonly", "deviceId", "timeout", "sync"}
    case KRng => {}
    case KBalloon => {}
  }

  ghost predicate SameSettings(kind: DeviceKind, p: seq<Opt>, q: seq<Opt>) {
    forall s :: LastEffect(kind, s, p).Some? <==> LastEffect(kind, s, q).Some?
  }

  predicate AllSame(kind: DeviceKind, p: seq<Opt>, q: seq<Opt>) {
    forall s :: s in Settings(kind) ==> Same(kind, s, p, q)
  }

  lemma FitsSetting(kind: DeviceKind, o: Opt)
    requires Fits(kind, o)
    ensures SettingOf(kind, o.key) in Settings(kind)
  {
  }

  /** A setting with one key is the same in two lists that both have it or not, just when the last values for that
      key, which fit, have the same effect. */
  lemma KeySame(kind: DeviceKind, key: string, p: seq<Opt>, q: seq<Opt>)
    requires AllFit(kind, p) && AllFit(kind, q) && SameSettings(kind, p, q)
    requires forall o: Opt :: SettingOf(kind, o.key) == key <==> o.key == key
    ensures Given(key, p) <==> Given(key, q)
    ensures Same(kind, key, p, q)
       <==> (Given(key, p) ==> EffectOf(kind, Opt(key, TextOf(key, p))) == EffectOf(kind, Opt(key, TextOf(key, q))))
    ensures Given(key, p) ==> Fits(kind, Opt(key, TextOf(key, p))) && Fits(kind, Opt(key, TextOf(key, q)))
  {
    EffectOfValue(kind, key, p);
    EffectOfValue(kind, key, q);
    ValueIn(key, p);
    ValueIn(key, q);
  }

  lemma RosettaSame(p: seq<Opt>, q: seq<Opt>)
    requires AllFit(KRosetta, p) && AllFit(KRosetta, q) && SameSettings(KRosetta, p, q)
    ensures RosettaOf(p) == RosettaOf(q) <==> AllSame(KRosetta, p, q)
  {
    KeySame(KRosetta, "mountTag", p, q);
    KeySame(KRosetta, "install", p, q);
    KeySame(KRosetta, "ignore-if-missing", p, q);
  }

  lemma DiskSame(kind: DeviceKind, devName: string, p: seq<Opt>, q: seq<Opt>)
    requires kind == KNvme || kind == KUsb || kind == KBlk
    requires AllFit(kind, p) && AllFit(kind, q) && SameSettings(kind, p, q)
    ensures DiskOf(devName, p) == DiskOf(devName, q)
       <==> Same(kind, "path", p, q) && Same(kind, "type", p, q) && Same(kind, "readonly", p, q)
  {
    KeySame(kind, "path", p, q);
    KeySame(kind, "type", p, q);
    KeySame(kind, "readonly", p, q);
  }

  lemma BlkSame(p: seq<Opt>, q: seq<Opt>)
    requires AllFit(KBlk, p) && AllFit(KBlk, q) && SameSettings(KBlk, p, q)
    ensures BlkOf(p) == BlkOf(q) <==> AllSame(KBlk, p, q)
  {
    DiskSame(KBlk, "virtio-blk", p, q);
    KeySame(KBlk, "deviceId", p, q);
  }

  lemma FsSame(p: seq<Opt>, q: seq<Opt>)
    requires AllFit(KFs, p) && AllFit(KFs, q) && SameSettings(KFs, p, q)
    ensures FsOf(p) == FsOf(q) <==> AllSame(KFs, p, q)
  {
    KeySame(KFs, "sharedDir", p, q);
    KeySame(KFs, "mountTag", p, q);
  }

  lemma SerialSame(p: seq<Opt>, q: seq<Opt>)
    requires AllFit(KSerial, p) && AllFit(KSerial, q) && SameSettings(KSerial, p, q)
    ensures SerialOf(p) == SerialOf(q) <==> AllSame(KSerial, p, q)
  {
    KeySame(KSerial, "logFilePath", p, q);
    KeySame(KSerial, "stdio", p, q);
    KeySame(KSerial, "pty", p, q);
  }

  lemma DirectionSame(p: seq<Opt>, q: seq<Opt>)
    requires AllFit(KVsock, p) && AllFit(KVsock, q) && SameSettings(KVsock, p, q)
    ensures Listens(p) == Listens(q) <==> Same(KVsock, "connect", p, q)
  {
    EffectOfLast(KVsock, "connect", IsDirection, p);
    EffectOfLast(KVsock, "connect", IsDirection, q);
    NetAcceptance.LastExists(IsDirection, p);
    NetAcceptance.LastExists(IsDirection, q);
    assert LastEffect(KVsock, "connect", p).Some? <==> LastEffect(KVsock, "connect", q).Some?;
  }

  lemma PortSame(p: seq<Opt>, q: seq<Opt>)
    requires AllFit(KVsock, p) && AllFit(KVsock, q) && SameSettings(KVsock, p, q)
    ensures Port(p) == Port(q) <==> Same(KVsock, "port", p, q)
  {
    KeySame(KVsock, "port", p, q);
  }

  lemma VsockSame(p: seq<Opt>, q: seq<Opt>)
    requires AllFit(KVsock, p) && AllFit(KVsock, q) && SameSettings(KVsock, p, q)
    ensures VsockOf(p) == VsockOf(q) <==> AllSame(KVsock, p, q)
  {
    KeySame(KVsock, "socketURL", p, q);
    assert TextOf("socketURL", p) == TextOf("socketURL", q) <==> Same(KVsock, "socketURL", p, q);
    PortSame(p, q);
    DirectionSame(p, q);
    assert AllSame(KVsock, p, q)
      <==> Same(KVsock, "socketURL", p, q) && Same(KVsock, "port", p, q) && Same(KVsock, "connect", p, q);
  }

  lemma InputEffect(p: seq<Opt>)
    requires AllFit(KInput, p)
    ensures LastEffect(KInput, "keyboard", p) == if p == [] then None else Some(Words(InputOf(p).inputType))
  {
    if p != [] { assert p[|p|-1] in p; }
  }

  lemma InputSame(p: seq<Opt>, q: seq<Opt>)
    requires AllFit(KInput, p) && AllFit(KInput, q) && SameSettings(KInput, p, q)
    ensures InputOf(p) == InputOf(q) <==> AllSame(KInput, p, q)
  {
    assert LastEffect(KInput, "keyboard", p).Some? <==> LastEffect(KInput, "keyboard", q).Some?;
    InputEffect(p);
    InputEffect(q);
    assert LastEffect(KInput, "keyboard", p).Some? <==> LastEffect(KInput, "keyboard", q).Some?;
    assert AllSame(KInput, p, q) <==> Same(KInput, "keyboard", p, q);
  }

  lemma DimensionSame(key: string, default: Int64, p: seq<Opt>, q: seq<Opt>)
    requires key == "width" || key == "height"
    requires AllFit(KGpu, p) && AllFit(KGpu, q) && SameSettings(KGpu, p, q)
    ensures Dimension(key, p, default) == Dimension(key, q, default) <==> Same(KGpu, key, p, q)
  {
    KeySame(KGpu, key, p, q);
  }

  lemma GpuSame(p: seq<Opt>, q: seq<Opt>)
    requires AllFit(KGpu, p) && AllFit(KGpu, q) && SameSettings(KGpu, p, q)
    ensures GpuOf(p, 800, 600) == GpuOf(q, 800, 600) <==> AllSame(KGpu, p, q)
  {
    DimensionSame("width", 800, p, q);
    DimensionSame("height", 600, p, q);
  }

  lemma TimeoutSame(p: seq<Opt>, q: seq<Opt>)
    requires AllFit(KNbd, p) && AllFit(KNbd, q) && SameSettings(KNbd, p, q)
    ensures Timeout(p) == Timeout(q) <==> Same(KNbd, "timeout", p, q)
  {
    KeySame(KNbd, "timeout", p, q);
  }

  lemma NbdStorageSame(p: seq<Opt>, q: seq<Opt>)
    requires AllFit(KNbd, p) && AllFit(KNbd, q) && SameSettings(KNbd, p, q)
    ensures NbdOf(p).storage == NbdOf(q).storage <==> Same(KNbd, "uri", p, q) && Same(KNbd, "readonly", p, q)
  {
    KeySame(KNbd, "uri", p, q);
    KeySame(KNbd, "readonly", p, q);
  }

  lemma NbdOwnSame(p: seq<Opt>, q: seq<Opt>)
    requires AllFit(KNbd, p) && AllFit(KNbd, q) && SameSettings(KNbd, p, q)
    ensures TextOf("deviceId", p) == TextOf("deviceId", q) <==> Same(KNbd, "deviceId", p, q)
    ensures ValueOf("sync", p).GetOr("full") == ValueOf("sync", q).GetOr("full") <==> Same(KNbd, "sync", p, q)
  {
    KeySame(KNbd, "deviceId", p, q);
    KeySame(KNbd, "sync", p, q);
  }

  lemma NbdSame(p: seq<Opt>, q: seq<Opt>)
    requires AllFit(KNbd, p) && AllFit(KNbd, q) && SameSettings(KNbd, p, q)
    ensures NbdOf(p) == NbdOf(q) <==> AllSame(KNbd, p, q)
  {
    NbdStorageSame(p, q);
    NbdOwnSame(p, q);
    TimeoutSame(p, q);
  }

  function NetOf(opts: seq<Opt>): NetView {
    NetAcceptance.Described(opts, Given("path", opts) || Given("unixSocketPath", opts))
  }

  lemma NetSettingSame(setting: string, p: seq<Opt>, q: seq<Opt>, picks: Opt -> bool)
    requires AllFit(KNet, p) && AllFit(KNet, q) && SameSettings(KNet, p, q)
    requires forall o: Opt :: SettingOf(KNet, o.key) == setting <==> picks(o)
    ensures var a, b := NetAcceptance.Last(picks, p), NetAcceptance.Last(picks, q);
            && (a.Some? <==> b.Some?)
            && (Same(KNet, setting, p, q) <==> (a.Some? ==> EffectOf(KNet, a.value) == EffectOf(KNet, b.value)))
            && (a.Some? ==> Fits(KNet, a.value) && picks(a.value) && Fits(KNet, b.value) && picks(b.value))
  {
    EffectOfLast(KNet, setting, picks, p);
    EffectOfLast(KNet, setting, picks, q);
    NetAcceptance.LastExists(picks, p);
    NetAcceptance.LastExists(picks, q);
    assert LastEffect(KNet, setting, p).Some? <==> LastEffect(KNet, setting, q).Some?;
  }

  predicate IsOffloading(o: Opt) { o.key == "offloading" }

  lemma NetFlagsSame(p: seq<Opt>, q: seq<Opt>)
    requires AllFit(KNet, p) && AllFit(KNet, q) && SameSettings(KNet, p, q)
    ensures NetOf(p).usesNat == NetOf(q).usesNat
    ensures Same(KNet, "nat", p, q) && Same(KNet, "type", p, q) && Same(KNet, "offloading", p, q)
  {
    NetSettingSame("nat", p, q, NetAcceptance.IsNat);
    NetSettingSame("type", p, q, NetAcceptance.IsType);
    NetSettingSame("offloading", p, q, IsOffloading);
  }

  lemma NetMacSame(p: seq<Opt>, q: seq<Opt>)
    requires AllFit(KNet, p) && AllFit(KNet, q) && SameSettings(KNet, p, q)
    ensures NetOf(p).mac == NetOf(q).mac <==> Same(KNet, "mac", p, q)
  {
    NetSettingSame("mac", p, q, NetAcceptance.IsMac);
  }

  lemma NetFdSame(p: seq<Opt>, q: seq<Opt>)
    requires AllFit(KNet, p) && AllFit(KNet, q) && SameSettings(KNet, p, q)
    ensures NetOf(p).socket == NetOf(q).socket <==> Same(KNet, "fd", p, q)
  {
    NetSettingSame("fd", p, q, NetAcceptance.IsFd);
  }

  lemma NetPathSame(p: seq<Opt>, q: seq<Opt>)
    requires AllFit(KNet, p) && AllFit(KNet, q) && SameSettings(KNet, p, q)
    ensures NetOf(p).unixSocketPath == NetOf(q).unixSocketPath <==> Same(KNet, "unixSocketPath", p, q)
    ensures Given("path", p) || Given("unixSocketPath", p) <==> Given("path", q) || Given("unixSocketPath", q)
  {
    NetSettingSame("unixSocketPath", p, q, IsPathOption);
    NetAcceptance.LastExists(IsPathOption, p);
    NetAcceptance.LastExists(IsPathOption, q);
    GivenMeaning("path", p);
    GivenMeaning("path", q);
    GivenMeaning("unixSocketPath", p);
    GivenMeaning("unixSocketPath", q);
  }

  lemma NetMagicSame(p: seq<Opt>, q: seq<Opt>)
    requires AllFit(KNet, p) && AllFit(KNet, q) && SameSettings(KNet, p, q)
    ensures NetOf(p).vfkitMagic == NetOf(q).vfkitMagic <==> Same(KNet, "vfkitMagic", p, q)
  {
    NetSettingSame("vfkitMagic", p, q, NetAcceptance.IsMagic);
    NetPathSame(p, q);
  }

  lemma NetSame(p: seq<Opt>, q: seq<Opt>)
    requires AllFit(KNet, p) && AllFit(KNet, q) && SameSettings(KNet, p, q)
    ensures NetOf(p) == NetOf(q) <==> AllSame(KNet, p, q)
  {
    NetFlagsSame(p, q);
    NetMacSame(p, q);
    NetFdSame(p, q);
    NetPathSame(p, q);
    NetMagicSame(p, q);
  }

  /** Two lists for the same settings describe the same device exactly when every setting is the same. */
  lemma DeviceSame(kind: DeviceKind, p: seq<Opt>, q: seq<Opt>)
    requires AllFit(kind, p) && AllFit(kind, q) && SameSettings(kind, p, q)
    ensures DeviceOf(kind, p) == DeviceOf(kind, q) <==> AllSame(kind, p, q)
  {
    match kind
    case KRosetta => RosettaSame(p, q);
    case KNvme => DiskSame(KNvme, "nvme", p, q);
    case KUsb => DiskSame(KUsb, "usb-mass-storage", p, q);
    case KBlk => BlkSame(p, q);
    case KFs => FsSame(p, q);
    case KNet => NetSame(p, q);
    case KSerial => SerialSame(p, q);
    case KVsock => VsockSame(p, q);
    case KInput => InputSame(p, q);
    case KGpu => GpuSame(p, q);
    case KNbd => NbdSame(p, q);
    case KRng =>
    case KBalloon =>
  }

  // ---------- Permutations ----------

  lemma SameMembers<T>(p: seq<T>, q: seq<T>)
    requires multiset(p) == multiset(q)
    ensures forall x :: x in p <==> x in q
    ensures |p| == |q|
  {
    assert |multiset(p)| == |p| && |multiset(q)| == |q|;
    assert forall x :: x in p <==> x in multiset(p);
    assert forall x :: x in q <==> x in multiset(q);
  }

  /** Two options conflict when they do different things to one setting. */
  predicate Clash(kind: DeviceKind, x: Opt, y: Opt) {
    SettingOf(kind, x.key) == SettingOf(kind, y.key) && EffectOf(kind, x) != EffectOf(kind, y)
  }

  predicate NoClash(kind: DeviceKind, opts: seq<Opt>) {
    forall x, y :: x in opts && y in opts ==> !Clash(kind, x, y)
  }

  lemma PermutedSettings(kind: DeviceKind, p: seq<Opt>, q: seq<Opt>)
    requires multiset(p) == multiset(q)
    ensures SameSettings(kind, p, q)
    ensures NoClash(kind, p) ==> AllSame(kind, p, q)
  {
    SameMembers(p, q);
    forall s
      ensures LastEffect(kind, s, p).Some? <==> LastEffect(kind, s, q).Some?
      ensures NoClash(kind, p) ==> Same(kind, s, p, q)
    {
      var x := EffectExists(kind, s, p);
      var y := EffectExists(kind, s, q);
      assert x in p && y in p ==> (NoClash(kind, p) ==> !Clash(kind, x, y));
    }
  }

  // ---------- Completeness ----------

  /** The one setting whose last value decides whether a list is complete. */
  function Deciding(kind: DeviceKind): string {
    match kind
    case KBlk => "path"
    case KNet => "unixSocketPath"
    case KSerial => "logFilePath"
    case _ => ""
  }

  predicate Decides(kind: DeviceKind, o: Opt) { SettingOf(kind, o.key) == Deciding(kind) }

  function FinalText(kind: DeviceKind, opts: seq<Opt>): string {
    match LastEffect(kind, Deciding(kind), opts)
    case Some(Words(text)) => text
    case _ => ""
  }

  ghost predicate CompleteWith(kind: DeviceKind, opts: seq<Opt>, raw: DiskOracle, text: string) {
    match kind
    case KBlk => raw(text)
    case KNet =>
      && NetAcceptance.ExactlyOne(NetAcceptance.Has(opts, "nat"), NetAcceptance.Has(opts, "fd"), text != "")
      && (NetAcceptance.Has(opts, "type") ==> text != "")
      && (NetAcceptance.Has(opts, "path") || NetAcceptance.Has(opts, "offloading") ==> NetAcceptance.Has(opts, "type"))
    case KSerial => NetAcceptance.ExactlyOne(text != "", Given("stdio", opts), Given("pty", opts))
    case _ => Complete(kind, opts, raw)
  }

  lemma FinalTextMeaning(kind: DeviceKind, opts: seq<Opt>)
    requires AllFit(kind, opts)
    ensures kind == KBlk ==> FinalText(kind, opts) == TextOf("path", opts)
    ensures kind == KSerial ==> FinalText(kind, opts) == TextOf("logFilePath", opts)
    ensures kind == KNet ==> FinalText(kind, opts) == NetAcceptance.SocketPath(opts)
  {
    match kind
    case KBlk => EffectOfValue(KBlk, "path", opts);
    case KSerial => EffectOfValue(KSerial, "logFilePath", opts);
    case KNet =>
      EffectOfLast(KNet, "unixSocketPath", IsPathOption, opts);
      NetAcceptance.LastExists(IsPathOption, opts);
    case _ =>
  }

  lemma CompleteByText(kind: DeviceKind, opts: seq<Opt>, raw: DiskOracle)
    requires AllFit(kind, opts)
    ensures Complete(kind, opts, raw) <==> CompleteWith(kind, opts, raw, FinalText(kind, opts))
  {
    FinalTextMeaning(kind, opts);
  }

  lemma CompletePermuted(kind: DeviceKind, p: seq<Opt>, q: seq<Opt>, raw: DiskOracle, text: string)
    requires multiset(p) == multiset(q)
    ensures CompleteWith(kind, p, raw, text) <==> CompleteWith(kind, q, raw, text)
  {
    SameMembers(p, q);
    forall key ensures Given(key, p) <==> Given(key, q) {
      GivenMeaning(key, p);
      GivenMeaning(key, q);
    }
    assert forall key :: NetAcceptance.Has(p, key) <==> NetAcceptance.Has(q, key);
  }

  /** A text some order of the list ends up with for the deciding setting. */
  ghost predicate CanEndWith(kind: DeviceKind, opts: seq<Opt>, text: string) {
    || (exists o :: o in opts && Decides(kind, o) && o.value == text)
    || (text == "" && forall o :: o in opts ==> !Decides(kind, o))
  }

  /** Some option does not fit, or the list is incomplete with each of those texts. */
  ghost predicate AlwaysRefused(kind: DeviceKind, opts: seq<Opt>, raw: DiskOracle) {
    AllFit(kind, opts) ==> forall text :: CanEndWith(kind, opts, text) ==> !CompleteWith(kind, opts, raw, text)
  }

  lemma EndsWithOne(kind: DeviceKind, opts: seq<Opt>)
    requires AllFit(kind, opts)
    ensures CanEndWith(kind, opts, FinalText(kind, opts))
  {
    var o := EffectExists(kind, Deciding(kind), opts);
    if LastEffect(kind, Deciding(kind), opts).Some? {
      assert Fits(kind, o) && Decides(kind, o);
      DecidingWords(kind, o);
    }
  }

  lemma DecidingWords(kind: DeviceKind, o: Opt)
    requires Fits(kind, o) && Decides(kind, o)
    ensures EffectOf(kind, o) == Words(o.value)
  {
  }

  // ---------- The order of a list ----------

  ghost predicate OrderFree(kind: DeviceKind, opts: seq<Opt>, raw: DiskOracle) {
    forall perm :: multiset(perm) == multiset(opts) ==> FromOptions(kind, perm, raw) == FromOptions(kind, opts, raw)
  }

  lemma OrderIrrelevant(kind: DeviceKind, opts: seq<Opt>, perm: seq<Opt>, raw: DiskOracle)
    requires multiset(perm) == multiset(opts)
    requires NoClash(kind, opts) || AlwaysRefused(kind, opts, raw)
    ensures FromOptions(kind, perm, raw) == FromOptions(kind, opts, raw)
  {
    SameMembers(perm, opts);
    DeviceAccepts(kind, opts, raw);
    DeviceAccepts(kind, perm, raw);
    if AllFit(kind, opts) {
      CompleteByText(kind, opts, raw);
      CompleteByText(kind, perm, raw);
      EndsWithOne(kind, opts);
      EndsWithOne(kind, perm);
      CompletePermuted(kind, perm, opts, raw, FinalText(kind, perm));
      assert CanEndWith(kind, opts, FinalText(kind, perm));
      if NoClash(kind, opts) {
        PermutedSettings(kind, opts, perm);
        DeviceSame(kind, opts, perm);
        FinalTextSame(kind, opts, perm);
      }
    }
  }

  lemma FinalTextSame(kind: DeviceKind, p: seq<Opt>, q: seq<Opt>)
    requires AllFit(kind, p) && AllFit(kind, q) && AllSame(kind, p, q)
    ensures FinalText(kind, p) == FinalText(kind, q)
  {
    var x := EffectExists(kind, Deciding(kind), p);
    var y := EffectExists(kind, Deciding(kind), q);
    if Deciding(kind) !in Settings(kind) {
      if LastEffect(kind, Deciding(kind), p).Some? { FitsSetting(kind, x); }
      if LastEffect(kind, Deciding(kind), q).Some? { FitsSetting(kind, y); }
    }
  }

  /** If a list of fitting options is accepted, and its last two conflict, then changing places they give another
      device, or none. */
  lemma ConflictMatters(kind: DeviceKind, rest: seq<Opt>, x: Opt, y: Opt, raw: DiskOracle)
    requires Clash(kind, x, y)
    requires FromOptions(kind, rest + [x] + [y], raw).Some?
    ensures FromOptions(kind, rest + [x] + [y], raw) != FromOptions(kind, rest + [y] + [x], raw)
  {
    var p, q := rest + [x] + [y], rest + [y] + [x];
    DeviceAccepts(kind, p, raw);
    DeviceAccepts(kind, q, raw);
    assert multiset(p) == multiset(q);
    SameMembers(p, q);
    PermutedSettings(kind, p, q);
    DeviceSame(kind, p, q);
    var s := SettingOf(kind, x.key);
    EffectSnoc(kind, s, rest + [x], y);
    EffectSnoc(kind, s, rest + [y], x);
    assert x in p;
    FitsSetting(kind, x);
    assert !Same(kind, s, p, q);
  }

  lemma MoveLast<T>(items: seq<T>, x: T) returns (rest: seq<T>)
    requires x in items
    ensures multiset(rest + [x]) == multiset(items)
    ensures forall y :: y in items && y != x ==> y in rest
  {
    var i :| 0 <= i < |items| && items[i] == x;
    rest := items[..i] + items[i+1..];
    assert items == items[..i] + [x] + items[i+1..];
    forall y | y in items && y != x ensures y in rest {
      var k :| 0 <= k < |items| && items[k] == y;
      assert y == if k < i then rest[k] else rest[k-1];
    }
  }

  lemma MoveTwoLast<T>(items: seq<T>, x: T, y: T) returns (rest: seq<T>)
    requires x in items && y in items && x != y
    ensures multiset(rest + [x] + [y]) == multiset(items)
    ensures forall z :: z in items && z != x && z != y ==> z in rest
  {
    var r := MoveLast(items, y);
    rest := MoveLast(r, x);
    assert multiset(rest + [x] + [y]) == multiset(rest + [x]) + multiset{y} == multiset(r + [y]);
  }

  lemma MoveThreeLast<T>(items: seq<T>, o: T, x: T, y: T) returns (rest: seq<T>)
    requires o in items && x in items && y in items && x != y && o != x && o != y
    ensures multiset(rest + [o] + [x] + [y]) == multiset(items)
  {
    var r := MoveTwoLast(items, x, y);
    rest := MoveLast(r, o);
    assert multiset(rest + [o] + [x] + [y]) == multiset(rest + [o]) + multiset{x, y} == multiset(r + [x] + [y]);
  }

  lemma SwapLast<T>(rest: seq<T>, x: T, y: T)
    ensures multiset(rest + [x] + [y]) == multiset(rest + [y] + [x])
  {
  }

  lemma AcceptedOrder(kind: DeviceKind, opts: seq<Opt>, perm: seq<Opt>, raw: DiskOracle)
    requires multiset(perm) == multiset(opts)
    requires AllFit(kind, opts) && CompleteWith(kind, opts, raw, FinalText(kind, perm))
    ensures FromOptions(kind, perm, raw).Some?
  {
    SameMembers(perm, opts);
    DeviceAccepts(kind, perm, raw);
    CompleteByText(kind, perm, raw);
    CompletePermuted(kind, perm, opts, raw, FinalText(kind, perm));
  }

  lemma EndsWithText(kind: DeviceKind, rest: seq<Opt>, o: Opt)
    requires Fits(kind, o) && Decides(kind, o)
    ensures FinalText(kind, rest + [o]) == o.value
  {
    EffectSnoc(kind, Deciding(kind), rest, o);
    DecidingWords(kind, o);
  }

  lemma TextKept(kind: DeviceKind, rest: seq<Opt>, x: Opt, y: Opt)
    requires !Decides(kind, x) && !Decides(kind, y)
    ensures FinalText(kind, rest + [x] + [y]) == FinalText(kind, rest)
  {
    EffectSnoc(kind, Deciding(kind), rest + [x], y);
    EffectSnoc(kind, Deciding(kind), rest, x);
  }

  lemma NoText(kind: DeviceKind, opts: seq<Opt>)
    requires forall o :: o in opts ==> !Decides(kind, o)
    ensures FinalText(kind, opts) == ""
  {
    var o := EffectExists(kind, Deciding(kind), opts);
  }

  /** An accepted order that ends in two given options, if they conflict over another setting. */
  lemma ConflictElsewhere(kind: DeviceKind, opts: seq<Opt>, x: Opt, y: Opt, text: string, raw: DiskOracle)
    returns (rest: seq<Opt>)
    requires AllFit(kind, opts) && CanEndWith(kind, opts, text) && CompleteWith(kind, opts, raw, text)
    requires x in opts && y in opts && Clash(kind, x, y) && !Decides(kind, x)
    ensures multiset(rest + [x] + [y]) == multiset(opts)
    ensures FromOptions(kind, rest + [x] + [y], raw).Some?
  {
    if o :| o in opts && Decides(kind, o) && o.value == text {
      rest := MoveThreeLast(opts, o, x, y);
      EndsWithText(kind, rest, o);
      rest := rest + [o];
    } else {
      rest := MoveTwoLast(opts, x, y);
      SameMembers(rest + [x] + [y], opts);
      assert forall o :: o in rest ==> o in rest + [x] + [y];
      NoText(kind, rest);
    }
    TextKept(kind, rest, x, y);
    AcceptedOrder(kind, opts, rest + [x] + [y], raw);
  }

  /** If they conflict over the deciding setting, one of them conflicts with an option that completes the list. */
  lemma ConflictHere(kind: DeviceKind, opts: seq<Opt>, x: Opt, y: Opt, text: string, raw: DiskOracle)
    returns (rest: seq<Opt>, a: Opt, b: Opt)
    requires AllFit(kind, opts) && CanEndWith(kind, opts, text) && CompleteWith(kind, opts, raw, text)
    requires x in opts && y in opts && Clash(kind, x, y) && Decides(kind, x)
    ensures Clash(kind, a, b) && multiset(rest + [a] + [b]) == multiset(opts)
    ensures FromOptions(kind, rest + [a] + [b], raw).Some?
  {
    b :| b in opts && Decides(kind, b) && b.value == text;
    a := if Clash(kind, x, b) then x else y;
    rest := MoveTwoLast(opts, a, b);
    EndsWithText(kind, rest + [a], b);
    AcceptedOrder(kind, opts, rest + [a] + [b], raw);
  }

  lemma OrderMatters(kind: DeviceKind, opts: seq<Opt>, raw: DiskOracle)
    requires !NoClash(kind, opts) && !AlwaysRefused(kind, opts, raw)
    ensures !OrderFree(kind, opts, raw)
  {
    var text :| CanEndWith(kind, opts, text) && CompleteWith(kind, opts, raw, text);
    var x, y :| x in opts && y in opts && Clash(kind, x, y);
    var rest;
    if Decides(kind, x) {
      rest, x, y := ConflictHere(kind, opts, x, y, text, raw);
    } else {
      rest := ConflictElsewhere(kind, opts, x, y, text, raw);
    }
    ConflictMatters(kind, rest, x, y, raw);
    SwapLast(rest, x, y);
    TwoOutcomes(kind, opts, rest + [x] + [y], rest + [y] + [x], raw);
  }

  lemma TwoOutcomes(kind: DeviceKind, opts: seq<Opt>, p: seq<Opt>, q: seq<Opt>, raw: DiskOracle)
    requires multiset(p) == multiset(opts) && multiset(q) == multiset(opts)
    requires FromOptions(kind, p, raw) != FromOptions(kind, q, raw)
    ensures !OrderFree(kind, opts, raw)
  {
  }

  /** Every order of a list is accepted or refused alike and yields the same device, exactly when no two of its
      options do different things to one setting, or no order of it can be accepted. */
  lemma OptionOrderIrrelevant(kind: DeviceKind, opts: seq<Opt>, raw: DiskOracle)
    ensures OrderFree(kind, opts, raw) <==> NoClash(kind, opts) || AlwaysRefused(kind, opts, raw)
  {
    if NoClash(kind, opts) || AlwaysRefused(kind, opts, raw) {
      forall perm | multiset(perm) == multiset(opts)
        ensures FromOptions(kind, perm, raw) == FromOptions(kind, opts, raw)
      {
        OrderIrrelevant(kind, opts, perm, raw);
      }
    } else {
      OrderMatters(kind, opts, raw);
    }
  }

  lemma DiskOrder(x: Opt, y: Opt)
    requires x.key != y.key || x == y
    ensures Commute(DiskStep, x, y)
  {
    forall s ensures Then(DiskStep(s, x), DiskStep, y) == Then(DiskStep(s, y), DiskStep, x) {
      match x.key
      case "path" =>
      case "type" =>
      case "readonly" =>
      case _ =>
    }
  }

  lemma BlkOrder(x: Opt, y: Opt)
    requires x.key != y.key || x == y
    ensures Commute(BlkStep, x, y)
  {
    DiskOrder(x, y);
    forall s ensures Then(BlkStep(s, x), BlkStep, y) == Then(BlkStep(s, y), BlkStep, x) {
      assert Then(DiskStep(s.disk, x), DiskStep, y) == Then(DiskStep(s.disk, y), DiskStep, x);
    }
  }

  lemma NbdOrder(x: Opt, y: Opt)
    requires x.key != y.key || x == y
    ensures Commute(NbdStep, x, y)
  {
    forall s ensures Then(NbdStep(s, x), NbdStep, y) == Then(NbdStep(s, y), NbdStep, x) {
      match x.key
      case "deviceId" =>
      case "timeout" =>
      case "sync" =>
      case "uri" =>
      case "readonly" =>
      case _ =>
    }
  }

  // ---------- Two passes are one ----------

  /** virtio-blk reads its own option first and hands the rest to the disk: that is one pass over the list. */
  lemma BlkTwoPasses(d: BlkView, opts: seq<Opt>)
    ensures Resume(BlkStep, Fold(BlkStep, d, Select(IsDeviceId, opts)), SetAside(IsDeviceId, opts))
         == Fold(BlkStep, d, opts)
  {
    forall x, y | x in opts && y in opts && IsDeviceId(x) && !IsDeviceId(y) ensures Commute(BlkStep, y, x) {
      BlkOrder(y, x);
    }
    TwoPasses(BlkStep, IsDeviceId, d, opts);
  }

  lemma NbdTwoPasses(d: NbdView, opts: seq<Opt>)
    ensures Resume(NbdStep, Fold(NbdStep, d, Select(IsNbdOwn, opts)), SetAside(IsNbdOwn, opts))
         == Fold(NbdStep, d, opts)
  {
    forall x, y | x in opts && y in opts && IsNbdOwn(x) && !IsNbdOwn(y) ensures Commute(NbdStep, y, x) {
      NbdOrder(y, x);
    }
    TwoPasses(NbdStep, IsNbdOwn, d, opts);
  }
}
