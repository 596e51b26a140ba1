/** The three bootloaders, their two codecs, and which of them survive the command line. */
module Bootloaders {
  import opened Text
  import opened Options
  import opened StringSlice

  datatype LinuxView = LinuxView(vmlinuzPath: string, kernelCmdLine: string, initrdPath: string)
  datatype EfiView = EfiView(storePath: string, create: bool)
  datatype MacView = MacView(machineIdentifierPath: string, hardwareModelPath: string, auxImagePath: string)

  datatype Bootloader = Linux(linux: LinuxView) | Efi(efi: EfiView) | MacOS(mac: MacView)

  const FRESH_LINUX := LinuxView("", "", "")
  const FRESH_EFI := EfiView("", false)
  const FRESH_MAC := MacView("", "", "")

  function LinuxStep(b: LinuxView, o: Opt): Option<LinuxView> {
    match o.key
    case "kernel" => Some(b.(vmlinuzPath := o.value))
    case "cmdline" => Some(b.(kernelCmdLine := TrimQuotes(o.value)))
    case "initrd" => Some(b.(initrdPath := o.value))
    case _ => None
  }

  function EfiStep(b: EfiView, o: Opt): Option<EfiView> {
    match o.key
    case "variable-store" => Some(b.(storePath := o.value))
    case "create" => if o.value == "" then Some(b.(create := true)) else None
    case _ => None
  }

  function MacStep(b: MacView, o: Opt): Option<MacView> {
    match o.key
    case "machineIdentifierPath" => Some(b.(machineIdentifierPath := o.value))
    case "hardwareModelPath" => Some(b.(hardwareModelPath := o.value))
    case "auxImagePath" => Some(b.(auxImagePath := o.value))
    case _ => None
  }

  function Wrap<T>(r: Option<T>, tag: T -> Bootloader): Option<Bootloader> {
    match r
    case None => None
    case Some(v) => Some(tag(v))
  }

  function FromStrv(strv: seq<string>): Option<Bootloader> {
    if strv == [] then None
    else
      var opts := OptionsOf(strv[1..]);
      match strv[0]
      case "efi" => Wrap(Fold(EfiStep, FRESH_EFI, opts), v => Efi(v))
      case "linux" => Wrap(Fold(LinuxStep, FRESH_LINUX, opts), v => Linux(v))
      case "macos" => Wrap(Fold(MacStep, FRESH_MAC, opts), v => MacOS(v))
      case _ => None
  }

  function EfiText(b: EfiView): string {
    "efi" + (Setting("variable-store", b.storePath) + (if b.create then Flag("create") else ""))
  }

  /** ToCmdLine; a macOS bootloader adds no arguments at all. */
  function Args(b: Bootloader): Option<seq<string>> {
    match b
    case Linux(v) =>
      if v.vmlinuzPath == "" || v.initrdPath == "" || v.kernelCmdLine == "" then None
      else Some(["--kernel", v.vmlinuzPath, "--initrd", v.initrdPath, "--kernel-cmdline", v.kernelCmdLine])
    case Efi(v) => if v.storePath == "" then None else Some(["--bootloader", EfiText(v)])
    case MacOS(_) => Some([])
  }

  /** The text after --bootloader, set on a fresh flag value and then read as a bootloader. */
  function FromText(text: string): Option<Bootloader> {
    match ParseString(text)
    case None => None
    case Some(strv) => FromStrv(strv)
  }

  // ---------- The objects ----------

  class LinuxBootloader {
    var vmlinuzPath: string
    var kernelCmdLine: string
    var initrdPath: string

    function View(): LinuxView
      reads this
    {
      LinuxView(vmlinuzPath, kernelCmdLine, initrdPath)
    }

    constructor (vmlinuzPath: string, kernelCmdLine: string, initrdPath: string)
      ensures View() == LinuxView(vmlinuzPath, kernelCmdLine, initrdPath)
    {
      this.vmlinuzPath, this.kernelCmdLine, this.initrdPath := vmlinuzPath, kernelCmdLine, initrdPath;
    }

    method FromOptions(options: seq<Opt>) returns (ok: bool)
      modifies this
      ensures Fold(LinuxStep, old(View()), options) == if ok then Some(View()) else None
    {
      for i := 0 to |options|
        invariant Fold(LinuxStep, old(View()), options) == Fold(LinuxStep, View(), options[i..])
      {
        var option := options[i];
        assert options[i..][1..] == options[i+1..];
        match option.key
        case "kernel" => vmlinuzPath := option.value;
        case "cmdline" => kernelCmdLine := TrimQuotes(option.value);
        case "initrd" => initrdPath := option.value;
        case _ => return false;
      }
      return true;
    }

    method ToCmdLine() returns (r: Option<seq<string>>)
      ensures r == Args(Linux(View()))
    {
      var args := [];
      if vmlinuzPath == "" { return None; }
      args := args + ["--kernel", vmlinuzPath];
      if initrdPath == "" { return None; }
      args := args + ["--initrd", initrdPath];
      if kernelCmdLine == "" { return None; }
      args := args + ["--kernel-cmdline", kernelCmdLine];
      assert args == ["--kernel", vmlinuzPath, "--initrd", initrdPath, "--kernel-cmdline", kernelCmdLine];
      r := Some(args);
    }
  }

  class EFIBootloader {
    var storePath: string
    var create: bool

    function View(): EfiView
      reads this
    {
      EfiView(storePath, create)
    }

    constructor (storePath: string, create: bool)
      ensures View() == EfiView(storePath, create)
    {
      this.storePath, this.create := storePath, create;
    }

    method FromOptions(options: seq<Opt>) returns (ok: bool)
      modifies this
      ensures Fold(EfiStep, old(View()), options) == if ok then Some(View()) else None
    {
      for i := 0 to |options|
        invariant Fold(EfiStep, old(View()), options) == Fold(EfiStep, View(), options[i..])
      {
        var option := options[i];
        assert options[i..][1..] == options[i+1..];
        match option.key
        case "variable-store" => storePath := option.value;
        case "create" =>
          if option.value != "" { return false; }
          create := true;
        case _ => return false;
      }
      return true;
    }

    method ToCmdLine() returns (r: Option<seq<string>>)
      ensures r == Args(Efi(View()))
    {
      if storePath == "" { return None; }
      var builder := "efi";
      builder := builder + Setting("variable-store", storePath);
      if create { builder := builder + Flag("create"); }
      assert builder == EfiText(View());
      r := Some(["--bootloader", builder]);
    }
  }

  class MacOSBootloader {
    var machineIdentifierPath: string
    var hardwareModelPath: string
    var auxImagePath: string

    function View(): MacView
      reads this
    {
      MacView(machineIdentifierPath, hardwareModelPath, auxImagePath)
    }

    constructor ()
      ensures View() == FRESH_MAC
    {
      machineIdentifierPath, hardwareModelPath, auxImagePath := "", "", "";
    }

    method FromOptions(options: seq<Opt>) returns (ok: bool)
      modifies this
      ensures Fold(MacStep, old(View()), options) == if ok then Some(View()) else None
    {
      for i := 0 to |options|
        invariant Fold(MacStep, old(View()), options) == Fold(MacStep, View(), options[i..])
      {
        var option := options[i];
        assert options[i..][1..] == options[i+1..];
        match option.key
        case "machineIdentifierPath" => machineIdentifierPath := option.value;
        case "hardwareModelPath" => hardwareModelPath := option.value;
        case "auxImagePath" => auxImagePath := option.value;
        case _ => return false;
      }
      return true;
    }
  }

  /** BootloaderFromCmdLine. */
  method Build(optsStrv: seq<string>) returns (r: Option<Bootloader>)
    ensures r == FromStrv(optsStrv)
  {
    if |optsStrv| < 1 { return None; }
    var ok;
    var options := StrvToOptions(optsStrv[1..]);
    match optsStrv[0]
    case "efi" =>
      var bootloader := new EFIBootloader("", false);
      ok := bootloader.FromOptions(options);
      r := if ok then Some(Efi(bootloader.View())) else None;
    case "linux" =>
      var bootloader := new LinuxBootloader("", "", "");
      ok := bootloader.FromOptions(options);
      r := if ok then Some(Linux(bootloader.View())) else None;
    case "macos" =>
      var bootloader := new MacOSBootloader();
      ok := bootloader.FromOptions(options);
      r := if ok then Some(MacOS(bootloader.View())) else None;
    case _ => r := None;
  }

  // ---------- Which lists are accepted ----------

  predicate FitsEfi(o: Opt) { o.key == "variable-store" || o == Opt("create", "") }

  predicate FitsLinux(o: Opt) { o.key == "kernel" || o.key == "cmdline" || o.key == "initrd" }

  predicate FitsMac(o: Opt) {
    o.key == "machineIdentifierPath" || o.key == "hardwareModelPath" || o.key == "auxImagePath"
  }

  function EfiOf(opts: seq<Opt>): EfiView { EfiView(TextOf("variable-store", opts), Given("create", opts)) }

  function LinuxOf(opts: seq<Opt>): LinuxView {
    LinuxView(TextOf("kernel", opts), TrimQuotes(TextOf("cmdline", opts)), TextOf("initrd", opts))
  }

  function MacOf(opts: seq<Opt>): MacView {
    MacView(TextOf("machineIdentifierPath", opts), TextOf("hardwareModelPath", opts), TextOf("auxImagePath", opts))
  }

  lemma EfiReads(opts: seq<Opt>)
    ensures Fold(EfiStep, FRESH_EFI, opts) == if forall o :: o in opts ==> FitsEfi(o) then Some(EfiOf(opts)) else None
  {
    forall a, o ensures EfiStep(EfiOf(a), o) == if FitsEfi(o) then Some(EfiOf(a + [o])) else None {
      ValueSnoc("variable-store", a, o);
      ValueSnoc("create", a, o);
    }
    FoldDescribes(EfiStep, FitsEfi, EfiOf, opts);
  }

  lemma LinuxReads(opts: seq<Opt>)
    ensures Fold(LinuxStep, FRESH_LINUX, opts)
         == if forall o :: o in opts ==> FitsLinux(o) then Some(LinuxOf(opts)) else None
  {
    forall a, o ensures LinuxStep(LinuxOf(a), o) == if FitsLinux(o) then Some(LinuxOf(a + [o])) else None {
      ValueSnoc("kernel", a, o);
      ValueSnoc("cmdline", a, o);
      ValueSnoc("initrd", a, o);
    }
    FoldDescribes(LinuxStep, FitsLinux, LinuxOf, opts);
  }

  lemma MacReads(opts: seq<Opt>)
    ensures Fold(MacStep, FRESH_MAC, opts) == if forall o :: o in opts ==> FitsMac(o) then Some(MacOf(opts)) else None
  {
    forall a, o ensures MacStep(MacOf(a), o) == if FitsMac(o) then Some(MacOf(a + [o])) else None {
      ValueSnoc("machineIdentifierPath", a, o);
      ValueSnoc("hardwareModelPath", a, o);
      ValueSnoc("auxImagePath", a, o);
    }
    FoldDescribes(MacStep, FitsMac, MacOf, opts);
  }

  /** A list names one of the three bootloaders and then options that fit it; the last option for a key decides. */
  lemma BootloaderAccepts(name: string, rest: seq<string>)
    ensures FromStrv([name] + rest)
         == if name == "efi" && (forall o :: o in OptionsOf(rest) ==> FitsEfi(o)) then Some(Efi(EfiOf(OptionsOf(rest))))
            else if name == "linux" && (forall o :: o in OptionsOf(rest) ==> FitsLinux(o))
              then Some(Linux(LinuxOf(OptionsOf(rest))))
            else if name == "macos" && (forall o :: o in OptionsOf(rest) ==> FitsMac(o))
              then Some(MacOS(MacOf(OptionsOf(rest))))
            else None
  {
    assert ([name] + rest)[1..] == rest;
    match name
    case "efi" => EfiReads(OptionsOf(rest));
    case "linux" => LinuxReads(OptionsOf(rest));
    case "macos" => MacReads(OptionsOf(rest));
    case _ =>
  }

  // ---------- Surviving the command line ----------

  predicate Unquoted(s: string) { ',' !in s && '"' !in s }

  lemma {:induction false} UnquotedPrefix(a: string, s: string)
    requires Unquoted(a)
    ensures RawFields(a + s, false) == Attach(a, RawFields(s, false))
    ensures Quotes(a + s) == Quotes(s)
    ensures Clean(a + s, false) == Clean(s, false)
  {
    var fields := RawFields(s, false);
    if a == "" {
      assert a + s == s;
      AttachNothing(fields);
    } else {
      assert (a + s)[1..] == a[1..] + s;
      UnquotedPrefix(a[1..], s);
      assert [a[0]] + (a[1..] + fields[0]) == a + fields[0];
    }
  }

  const STORE := "variable-store"

  function StoreField(path: string): string { STORE + "=" + path }

  function CreateField(create: bool): seq<string> { if create then ["create"] else [] }

  lemma EfiTailFields(path: string, create: bool)
    requires Even(Quotes(path))
    ensures RawFields(StoreField(path) + (if create then Flag("create") else ""), false)
         == Attach(STORE + "=", RawFields(path, false)) + CreateField(create)
  {
    var field := StoreField(path);
    assert field == (STORE + "=") + path;
    UnquotedPrefix(STORE + "=", path);
    if create {
      assert field + Flag("create") == field + "," + "create";
      FieldsConcat(field, "create", false);
      PlainFields("create");
      SplitPlain("create", ',');
    } else {
      assert field + "" == field;
    }
  }

  /** The fields a printed EFI bootloader splits into, when its path has balanced quotes. */
  lemma EfiFields(b: EfiView)
    requires Even(Quotes(b.storePath))
    ensures RawFields(EfiText(b), false)
         == ["efi"] + (Attach(STORE + "=", RawFields(b.storePath, false)) + CreateField(b.create))
  {
    var rest := StoreField(b.storePath) + (if b.create then Flag("create") else "");
    assert EfiText(b) == "efi" + "," + rest;
    EfiTailFields(b.storePath, b.create);
    CleanPrefix("efi", rest, false);
  }

  lemma EfiQuotes(b: EfiView)
    ensures Quotes(EfiText(b)) == Quotes(b.storePath)
  {
    var prefix, suffix := "efi," + STORE + "=", if b.create then Flag("create") else "";
    assert EfiText(b) == prefix + (b.storePath + suffix);
    NoQuotes(prefix);
    NoQuotes(suffix);
    QuotesConcat(prefix, b.storePath + suffix);
    QuotesConcat(b.storePath, suffix);
  }

  lemma {:induction false} OneFieldClean(s: string)
    requires Even(Quotes(s))
    ensures |RawFields(s, false)| == 1 <==> Clean(s, false)
    ensures Clean(s, false) ==> RawFields(s, false) == [s]
  {
    FieldsJoin(s, false);
    FieldsClean(s, false);
    if Clean(s, false) { CleanPrefix(s, "", false); }
  }

  lemma {:induction false} JoinLength(fields: seq<string>, i: nat)
    requires i < |fields|
    ensures |Join(fields, ',')| >= |fields[i]| + |fields| - 1
  {
    if |fields| > 1 {
      if i > 0 { JoinLength(fields[1..], i - 1); } else { JoinLength(fields[1..], 0); }
    }
  }

  /** What the reader makes of a field that only continues a cut path: any path in it is shorter. */
  lemma {:induction false} TrimShorter(s: string)
    ensures |TrimLeft(s)| <= |s| && |TrimRight(s)| <= |s|
    decreases |s|
  {
    if s != "" {
      TrimShorter(s[1..]);
      TrimShorter(s[..|s|-1]);
    }
  }

  lemma {:induction false} ShortOptions(fields: seq<string>, bound: nat)
    requires forall i :: 0 <= i < |fields| ==> |fields[i]| < bound
    ensures forall o :: o in OptionsOf(TrimAll(fields)) ==> |o.value| < bound
  {
    if fields != [] {
      var trimmed := TrimQuotes(fields[0]);
      TrimShorter(fields[0]);
      TrimShorter(TrimLeft(fields[0]));
      assert |trimmed| < bound;
      ShortOptions(fields[1..], bound);
      assert OptionsOf(TrimAll(fields)) == OneOption(trimmed) + OptionsOf(TrimAll(fields[1..]));
    }
  }

  lemma PlainHead(s: string)
    requires s != "" && s[0] != '"'
    ensures TrimAll([s]) == [s]
  {
  }

  /** The options those fields stand for: the first piece of the path, whatever the other pieces say, then create. */
  function EfiOptionList(b: EfiView): seq<Opt> {
    var pieces := RawFields(b.storePath, false);
    [Opt(STORE, pieces[0])] + OptionsOf(TrimAll(pieces[1..])) + OptionsOf(CreateField(b.create))
  }

  lemma EfiOptions(b: EfiView)
    requires Even(Quotes(b.storePath))
    ensures FromText(EfiText(b)) == Wrap(Fold(EfiStep, FRESH_EFI, EfiOptionList(b)), v => Efi(v))
  {
    var pieces := RawFields(b.storePath, false);
    var first, others, last := STORE + "=" + pieces[0], pieces[1..], CreateField(b.create);
    EfiFields(b);
    EfiQuotes(b);
    assert Attach(STORE + "=", pieces) == [first] + others;
    EfiTrimmed(first, others, b.create);
    SettingThenOptions(STORE, pieces[0], TrimAll(others), last);
  }

  lemma EfiTrimmed(first: string, others: seq<string>, create: bool)
    requires first != "" && first[0] != '"'
    ensures TrimAll(["efi"] + ([first] + others + CreateField(create)))
         == ["efi"] + ([first] + TrimAll(others) + CreateField(create))
  {
    var last := CreateField(create);
    TrimAllConcat([first] + others, last);
    TrimAllConcat([first], others);
    TrimAllConcat(["efi"], [first] + others + last);
    PlainHead("efi");
    PlainHead(first);
    PlainHead("create");
  }

  lemma SettingThenOptions(key: string, value: string, others: seq<string>, last: seq<string>)
    requires '=' !in key
    ensures OptionsOf([key + "=" + value] + others + last) == [Opt(key, value)] + OptionsOf(others) + OptionsOf(last)
  {
    var first := key + "=" + value;
    OptionsOfConcat([first] + others, last);
    OptionsOfConcat([first], others);
    StrToOptionParts(key, value);
    LoneText(first);
  }

  lemma CreateOptions(create: bool)
    ensures OptionsOf(CreateField(create)) == if create then [Opt("create", "")] else []
  {
    StrToOptionParts("create", "");
    LoneText("create");
  }

  lemma CreateRead(path: string, create: bool)
    ensures Fold(EfiStep, FRESH_EFI, [Opt(STORE, path)] + OptionsOf(CreateField(create))) == Some(EfiView(path, create))
  {
    FoldOne(EfiStep, FRESH_EFI, Opt(STORE, path));
    CreateOptions(create);
    if create {
      FoldSnoc(EfiStep, FRESH_EFI, [Opt(STORE, path)], Opt("create", ""));
    } else {
      assert [Opt(STORE, path)] + [] == [Opt(STORE, path)];
    }
  }

  lemma CleanPathKept(b: EfiView)
    requires Clean(b.storePath, false)
    ensures FromText(EfiText(b)) == Some(Efi(b))
  {
    var path := b.storePath;
    CleanMeaning(path, false);
    OneFieldClean(path);
    EfiOptions(b);
    assert [path][1..] == [];
    assert EfiOptionList(b) == [Opt(STORE, path)] + OptionsOf(CreateField(b.create));
    CreateRead(path, b.create);
  }

  /** An EFI bootloader comes back from its own --bootloader text exactly when its path has balanced quotes
      and no comma outside them. */
  lemma EfiRoundTrips(b: EfiView)
    requires b.storePath != ""
    ensures FromText(EfiText(b)) == Some(Efi(b)) <==> Clean(b.storePath, false)
  {
    EfiQuotes(b);
    if Clean(b.storePath, false) {
      CleanPathKept(b);
    } else if Even(Quotes(b.storePath)) {
      EfiOptions(b);
      OneFieldClean(b.storePath);
      CutPathIsShorter(b);
    }
  }

  lemma CutPathIsShorter(b: EfiView)
    requires Even(Quotes(b.storePath)) && |RawFields(b.storePath, false)| >= 2
    ensures var r := Fold(EfiStep, FRESH_EFI, EfiOptionList(b)); r.Some? ==> |r.value.storePath| < |b.storePath|
  {
    var pieces, bound := RawFields(b.storePath, false), |b.storePath|;
    FieldsJoin(b.storePath, false);
    forall i | 0 <= i < |pieces| ensures |pieces[i]| < bound { JoinLength(pieces, i); }
    ShortOptions(pieces[1..], bound);
    var opts := EfiOptionList(b);
    CreateOptions(b.create);
    assert forall o :: o in opts ==> |o.value| < bound;
    FoldKeeps(EfiStep, FRESH_EFI, opts, (v: EfiView) => |v.storePath| < bound);
  }
}
