/** Exactly which virtio-net option lists are accepted, and the device each of them describes. */
module NetAcceptance {
  import opened Text
  import opened Options
  import opened Devices

  /** An option that no virtio-net list may be refused for. */
  predicate WellFormed(o: Opt) {
    match o.key
    case "nat" => o.value == ""
    case "mac" => ParseMac(o.value).Some?
    case "fd" => FdOf(o).Some?
    case "unixSocketPath" => true
    case "type" => o.value == "unixgram"
    case "path" => true
    case "vfkitMagic" => o.value == "on" || o.value == "off"
    case "offloading" => o.value == "off"
    case _ => false
  }

  function FdOf(o: Opt): Option<Socket> {
    match ParseInt(o.value, 0x7FFF_FFFF_FFFF_FFFF)
    case None => None
    case Some(fd) => if 0 <= fd <= 0x7FFF_FFFF then Some(Descriptor(fd)) else None
  }

  /** The last option of a list that satisfies p: the one that wins. */
  function Last(p: Opt -> bool, opts: seq<Opt>): Option<Opt> {
    if opts == [] then None
    else if p(opts[|opts|-1]) then Some(opts[|opts|-1])
    else Last(p, opts[..|opts|-1])
  }

  predicate IsNat(o: Opt) { o.key == "nat" }
  predicate IsMac(o: Opt) { o.key == "mac" }
  predicate IsFd(o: Opt) { o.key == "fd" }
  predicate IsType(o: Opt) { o.key == "type" }
  predicate IsMagic(o: Opt) { o.key == "vfkitMagic" }
  predicate IsTypeOnly(o: Opt) { o.key == "path" || o.key == "offloading" }

  function SocketPath(opts: seq<Opt>): string {
    match Last(IsPathOption, opts)
    case None => ""
    case Some(o) => o.value
  }

  /** The device a list describes, whatever order its options come in up to the last of each kind. */
  function Described(opts: seq<Opt>, magic: bool): NetView {
    NetView(
      Last(IsNat, opts).Some?,
      (match Last(IsMac, opts) case None => [] case Some(o) => ParseMac(o.value).GetOr([])),
      (match Last(IsFd, opts) case None => None case Some(o) => FdOf(o)),
      SocketPath(opts),
      (match Last(IsMagic, opts) case None => magic case Some(o) => o.value == "on"))
  }

  predicate AllWellFormed(opts: seq<Opt>) { forall o :: o in opts ==> WellFormed(o) }

  lemma LastSnoc(p: Opt -> bool, opts: seq<Opt>, o: Opt)
    ensures Last(p, opts + [o]) == if p(o) then Some(o) else Last(p, opts)
  {
    assert (opts + [o])[..|opts|] == opts;
  }

  lemma StepDescribed(opts: seq<Opt>, magic: bool, o: Opt)
    requires WellFormed(o)
    ensures NetStep(NetScan(Described(opts, magic), Last(IsType, opts).Some?, Last(IsTypeOnly, opts).Some?), o)
         == Some(NetScan(Described(opts + [o], magic),
                         Last(IsType, opts + [o]).Some?, Last(IsTypeOnly, opts + [o]).Some?))
  {
    LastSnoc(IsNat, opts, o);
    LastSnoc(IsMac, opts, o);
    LastSnoc(IsFd, opts, o);
    LastSnoc(IsPathOption, opts, o);
    LastSnoc(IsMagic, opts, o);
    LastSnoc(IsType, opts, o);
    LastSnoc(IsTypeOnly, opts, o);
    match o.key
    case "nat" =>
    case "mac" =>
    case "fd" =>
    case "unixSocketPath" =>
    case "type" =>
    case "path" =>
    case "vfkitMagic" =>
    case "offloading" =>
  }

  lemma StepRefused(st: NetScan, o: Opt)
    requires !WellFormed(o)
    ensures NetStep(st, o).None?
  {
  }

  lemma {:induction false} ScanDescribed(opts: seq<Opt>, magic: bool)
    ensures Fold(NetStep, NetScan(FRESH_NET.(vfkitMagic := magic), false, false), opts)
         == if AllWellFormed(opts) then
              Some(NetScan(Described(opts, magic), Last(IsType, opts).Some?, Last(IsTypeOnly, opts).Some?))
            else None
  {
    var st := NetScan(FRESH_NET.(vfkitMagic := magic), false, false);
    if opts != [] {
      var a, o := opts[..|opts|-1], opts[|opts|-1];
      assert opts == a + [o];
      ScanDescribed(a, magic);
      FoldSnoc(NetStep, st, a, o);
      if AllWellFormed(a) {
        if WellFormed(o) { StepDescribed(a, magic, o); } else { StepRefused(Fold(NetStep, st, a).value, o); }
      }
    }
  }

  lemma {:induction false} LastExists(p: Opt -> bool, opts: seq<Opt>)
    ensures Last(p, opts).Some? <==> exists o :: o in opts && p(o)
    ensures Last(p, opts).Some? ==> Last(p, opts).value in opts && p(Last(p, opts).value)
  {
    if opts != [] {
      var a, o := opts[..|opts|-1], opts[|opts|-1];
      assert opts == a + [o];
      LastExists(p, a);
    }
  }

  predicate ExactlyOne(a: bool, b: bool, c: bool) {
    (a && !b && !c) || (!a && b && !c) || (!a && !b && c)
  }

  ghost predicate Has(opts: seq<Opt>, key: string) { exists o :: o in opts && o.key == key }

  /** Acceptance, stated on the list alone. */
  ghost predicate Acceptable(opts: seq<Opt>) {
    && AllWellFormed(opts)
    && ExactlyOne(Has(opts, "nat"), Has(opts, "fd"), SocketPath(opts) != "")
    && (Has(opts, "type") ==> SocketPath(opts) != "")
    && (Has(opts, "path") || Has(opts, "offloading") ==> Has(opts, "type"))
  }

  lemma KeysSeen(opts: seq<Opt>)
    requires AllWellFormed(opts)
    ensures Last(IsNat, opts).Some? <==> Has(opts, "nat")
    ensures Described(opts, true).socket.Some? <==> Has(opts, "fd")
    ensures Last(IsType, opts).Some? <==> Has(opts, "type")
    ensures Last(IsTypeOnly, opts).Some? <==> Has(opts, "path") || Has(opts, "offloading")
  {
    LastExists(IsNat, opts);
    LastExists(IsFd, opts);
    LastExists(IsType, opts);
    LastExists(IsTypeOnly, opts);
  }

  /** A fresh virtio-net device accepts a list exactly when it is acceptable, and becomes the device described:
      the magic packet is on by default when, and only when, some path option is present. */
  lemma NetAccepts(opts: seq<Opt>)
    ensures NetFromOptions(FRESH_NET, opts).Some? <==> Acceptable(opts)
    ensures NetFromOptions(FRESH_NET, opts).Some?
        ==> NetFromOptions(FRESH_NET, opts).value == Described(opts, Has(opts, "path") || Has(opts, "unixSocketPath"))
  {
    var magic := exists o :: o in opts && IsPathOption(o);
    assert magic <==> Has(opts, "path") || Has(opts, "unixSocketPath");
    assert NetPrescan(FRESH_NET, opts) == FRESH_NET.(vfkitMagic := magic);
    ScanDescribed(opts, magic);
    if AllWellFormed(opts) { KeysSeen(opts); }
  }
}
