/** Cloud-init images: names that carry a process id, and processes that clean up after dead ones. */
module CloudInit {
  import opened Text
  import opened Options
  import opened Notations

  const PREFIX := "vfkit-cloudinit-"

  /** os.CreateTemp on "vfkit-cloudinit-<pid>-*.iso", with the random part given. */
  function IsoName(pid: nat, random: string): string { PREFIX + (Dec(pid) + ("-" + (random + ".iso"))) }

  // ---------- Reading the process id back (fmt.Sscanf) ----------

  predicate IsSpace(c: char) {
    var u := c as int;
    || u == 0x09 || 0x0B <= u <= 0x0D || u == 0x20 || u == 0x85 || u == 0xA0 || u == 0x1680
    || 0x2000 <= u <= 0x200A || u == 0x2028 || u == 0x2029 || u == 0x202F || u == 0x205F || u == 0x3000
  }

  function SkipSpaces(s: string): string { if s != "" && IsSpace(s[0]) then SkipSpaces(s[1..]) else s }

  /** How many digits s starts with. */
  function DigitRun(s: string): (n: nat)
    ensures n <= |s| && AllDigits(s[..n])
    ensures n < |s| ==> !IsDigit(s[n])
  {
    if s == "" || !IsDigit(s[0]) then 0
    else
      var n := DigitRun(s[1..]);
      assert s[..n+1] == [s[0]] + s[1..][..n];
      n + 1
  }

  /** Spaces, an optional sign, digits that fit 32 bits, and then a dash. */
  function ScanNumber(s: string): Option<int> {
    var t := SkipSpaces(s);
    var signed := t != "" && (t[0] == '-' || t[0] == '+');
    var digits := if signed then t[1..] else t;
    var n := DigitRun(digits);
    if n == |digits| || digits[n] != '-' then None
    else ParseInt((if signed then [t[0]] else "") + digits[..n], MAX_INT32)
  }

  function ScanPid(name: string): Option<int> {
    if |name| < |PREFIX| || name[..|PREFIX|] != PREFIX then None else ScanNumber(name[|PREFIX|..])
  }

  lemma {:induction false} DigitRunAt(digits: string, rest: string)
    requires AllDigits(digits)
    requires rest != "" ==> !IsDigit(rest[0])
    ensures DigitRun(digits + rest) == |digits|
  {
    if digits == "" {
      assert digits + rest == rest;
    } else {
      assert (digits + rest)[1..] == digits[1..] + rest;
      DigitRunAt(digits[1..], rest);
    }
  }

  lemma ScanDigits(digits: string, rest: string)
    requires digits != "" && AllDigits(digits)
    requires rest != "" && rest[0] == '-'
    ensures ScanNumber(digits + rest) == ParseInt(digits, MAX_INT32)
  {
    var s := digits + rest;
    assert s[0] == digits[0] && IsDigit(digits[0]);
    assert SkipSpaces(s) == s;
    DigitRunAt(digits, rest);
    assert s[..|digits|] == digits && s[|digits|] == '-';
    assert "" + digits == digits;
  }

  lemma ScanPrinted(pid: nat, rest: string)
    requires pid <= MAX_INT32
    requires rest != "" && rest[0] == '-'
    ensures ScanNumber(Dec(pid) + rest) == Some(pid)
  {
    DecRoundTrip(pid);
    ScanDigits(Dec(pid), rest);
    ParsePrintedNumber(pid, MAX_INT32);
  }

  lemma AfterPrefix(prefix: string, rest: string)
    ensures (prefix + rest)[..|prefix|] == prefix && (prefix + rest)[|prefix|..] == rest
  {
  }

  /** The process id printed into a name is the one scanned back, whatever follows the second dash. */
  lemma NameCarriesPid(pid: nat, random: string)
    requires pid <= MAX_INT32
    ensures ScanPid(IsoName(pid, random)) == Some(pid)
  {
    var rest := "-" + (random + ".iso");
    AfterPrefix(PREFIX, Dec(pid) + rest);
    ScanPrinted(pid, rest);
  }

  lemma NameText(pid: nat, random: string)
    ensures IsoName(pid, random) == "vfkit-cloudinit-" + Dec(pid) + "-" + random + ".iso"
  {
  }

  // ---------- Exactly which names carry a process id ----------

  /** The code points that count as blank; a line feed does not. */
  const BLANKS: set<int> := {
    0x09, 0x0B, 0x0C, 0x0D, 0x20, 0x85, 0xA0, 0x1680, 0x2000, 0x2001, 0x2002, 0x2003, 0x2004, 0x2005, 0x2006, 0x2007,
    0x2008, 0x2009, 0x200A, 0x2028, 0x2029, 0x202F, 0x205F, 0x3000}

  lemma SpaceMeaning(c: char)
    ensures IsSpace(c) <==> c as int in BLANKS
  {
  }

  lemma BlankMeaning(s: string)
    ensures AllBlank(s) <==> AllSpaces(s)
  {
    forall c: char ensures IsSpace(c) <==> c as int in BLANKS { SpaceMeaning(c); }
  }

  predicate AllSpaces(s: string) { forall c :: c in s ==> IsSpace(c) }

  predicate AllBlank(s: string) { forall c :: c in s ==> c as int in BLANKS }

  lemma {:induction false} SkippedSpaces(s: string) returns (spaces: string)
    ensures s == spaces + SkipSpaces(s) && AllSpaces(spaces)
    ensures SkipSpaces(s) != "" ==> !IsSpace(SkipSpaces(s)[0])
  {
    spaces := "";
    if s != "" && IsSpace(s[0]) {
      spaces := SkippedSpaces(s[1..]);
      assert s == [s[0]] + s[1..];
      spaces := [s[0]] + spaces;
    } else {
      assert "" + s == s;
    }
  }

  lemma {:induction false} SkipAll(spaces: string, rest: string)
    requires AllSpaces(spaces) && (rest != "" ==> !IsSpace(rest[0]))
    ensures SkipSpaces(spaces + rest) == rest
  {
    if spaces == "" {
      assert spaces + rest == rest;
    } else {
      assert (spaces + rest)[1..] == spaces[1..] + rest;
      assert spaces[0] in spaces && forall c :: c in spaces[1..] ==> c in spaces;
      SkipAll(spaces[1..], rest);
    }
  }

  /** After the spaces: a number as strconv reads it, and a dash right behind its digits. */
  ghost predicate NumberAndDash(t: string, sign: string, digits: string, rest: string, pid: int) {
    t == (sign + digits) + ("-" + rest) && Denotes(sign + digits, sign, digits, pid)
  }

  lemma NumberStart(t: string, sign: string, digits: string, rest: string, pid: int)
    requires NumberAndDash(t, sign, digits, rest, pid)
    ensures t != "" && !IsSpace(t[0])
    ensures t[0] == '-' || t[0] == '+' <==> sign != ""
    ensures sign != "" ==> sign == [t[0]]
    ensures t[|sign|..] == digits + ("-" + rest)
  {
    assert t[0] == if sign != "" then sign[0] else digits[0];
    if sign == "" { assert IsDigit(digits[0]); }
  }

  lemma ScanNumberReads(s: string, spaces: string, t: string, sign: string, digits: string, rest: string, pid: int)
    requires s == spaces + t && AllSpaces(spaces)
    requires NumberAndDash(t, sign, digits, rest, pid)
    ensures ScanNumber(s) == ParseInt(sign + digits, MAX_INT32)
  {
    NumberStart(t, sign, digits, rest, pid);
    SkipAll(spaces, t);
    DigitRunAt(digits, "-" + rest);
    var after := digits + ("-" + rest);
    assert after[..|digits|] == digits && after[|digits|] == '-';
    assert t[0..] == t;
  }

  lemma CutAt(s: string, n: nat)
    requires n < |s|
    ensures s == s[..n] + ([s[n]] + s[n+1..])
  {
  }

  lemma ScanNumberParts(s: string, pid: int) returns (sign: string, digits: string, rest: string)
    requires ScanNumber(s) == Some(pid)
    ensures NumberAndDash(SkipSpaces(s), sign, digits, rest, pid)
    ensures -0x8000_0000 <= pid <= 0x7FFF_FFFF
  {
    var t := SkipSpaces(s);
    var signed := t != "" && (t[0] == '-' || t[0] == '+');
    sign := if signed then [t[0]] else "";
    var after := if signed then t[1..] else t;
    var n := DigitRun(after);
    digits, rest := after[..n], after[n+1..];
    assert t == sign + after;
    CutAt(after, n);
    Regroup(sign, digits, "-" + rest);
    ParseIntMeaning(sign + digits, MAX_INT32, pid);
    SignedDigits(sign, digits, pid);
  }

  /** A text splits into a sign and digits in one way only. */
  lemma SignedDigits(sign: string, digits: string, pid: int)
    requires sign == "" || sign == "+" || sign == "-"
    requires sign == "" && digits != "" ==> digits[0] != '-' && digits[0] != '+'
    requires exists g, ds :: Denotes(sign + digits, g, ds, pid)
    requires AllDigits(digits)
    ensures Denotes(sign + digits, sign, digits, pid)
  {
    var g, ds :| Denotes(sign + digits, g, ds, pid);
    assert IsDigit(ds[0]);
    assert g + ds == sign + digits;
    assert (g + ds)[0] == (sign + digits)[0];
    assert |g| == |sign|;
    assert g == (g + ds)[..|g|] && sign == (sign + digits)[..|sign|];
    assert ds == (g + ds)[|g|..] && digits == (sign + digits)[|sign|..];
  }

  /** The name is the prefix, spaces, a signed 32-bit number, a dash and anything. */
  ghost predicate Carries(name: string, spaces: string, sign: string, digits: string, rest: string, pid: int) {
    && name == "vfkit-cloudinit-" + (spaces + ((sign + digits) + ("-" + rest)))
    && AllBlank(spaces) && Denotes(sign + digits, sign, digits, pid)
    && -0x8000_0000 <= pid <= 0x7FFF_FFFF
  }

  ghost predicate CarriesPid(name: string, pid: int) {
    exists spaces, sign, digits, rest :: Carries(name, spaces, sign, digits, rest, pid)
  }

  /** A process id is scanned from exactly the names that carry it, and they all start with the prefix. */
  lemma ScanPidMeaning(name: string, pid: int)
    ensures ScanPid(name) == Some(pid) <==> CarriesPid(name, pid)
    ensures ScanPid(name).Some? ==> "vfkit-cloudinit-" <= name
  {
    if ScanPid(name) == Some(pid) {
      var spaces := SkippedSpaces(name[|PREFIX|..]);
      var sign, digits, rest := ScanNumberParts(name[|PREFIX|..], pid);
      assert name == PREFIX + name[|PREFIX|..];
      BlankMeaning(spaces);
      assert Carries(name, spaces, sign, digits, rest, pid);
    }
    if spaces, sign, digits, rest :| Carries(name, spaces, sign, digits, rest, pid) {
      var t := (sign + digits) + ("-" + rest);
      BlankMeaning(spaces);
      AfterPrefix(PREFIX, spaces + t);
      ScanNumberReads(spaces + t, spaces, t, sign, digits, rest, pid);
      ParseIntMeaning(sign + digits, MAX_INT32, pid);
    }
  }

  // ---------- One cleanup of a directory ----------

  /** What a cleanup removes: plain files whose name carries the id of a process known to be gone. */
  ghost predicate Stale(name: string, isDir: bool, pidExists: int -> Option<bool>) {
    !isDir && exists pid :: CarriesPid(name, pid) && pidExists(pid) == Some(false)
  }

  lemma StaleMeaning(name: string, isDir: bool, pidExists: int -> Option<bool>)
    ensures Stale(name, isDir, pidExists)
       <==> !isDir && ScanPid(name).Some? && pidExists(ScanPid(name).value) == Some(false)
    ensures Stale(name, isDir, pidExists) ==> "vfkit-cloudinit-" <= name
  {
    if ScanPid(name).Some? { ScanPidMeaning(name, ScanPid(name).value); }
    if Stale(name, isDir, pidExists) {
      var pid :| CarriesPid(name, pid) && pidExists(pid) == Some(false);
      ScanPidMeaning(name, pid);
    }
  }

  class TempDir {
    var present: bool
    /** Whether its entries can be listed. */
    var readable: bool
    /** Directory entries; the value says whether the entry is itself a directory. */
    var entries: map<string, bool>

    /** CleanupStaleCloudInitISO. It fails on a directory it cannot list; otherwise it removes nothing but stale
        files, and all of them unless a removal fails. */
    method Cleanup(pidExists: int -> Option<bool>, removable: string -> bool) returns (ok: bool)
      modifies this`entries
      ensures !present ==> ok && entries == old(entries)
      ensures present && !readable ==> !ok && entries == old(entries)
      ensures entries.Keys <= old(entries.Keys)
      ensures forall n :: n in entries ==> entries[n] == old(entries)[n]
      ensures forall n :: n in old(entries) && n !in entries ==>
                Stale(n, old(entries)[n], pidExists) && removable(n) && "vfkit-cloudinit-" <= n
      ensures present && ok ==> forall n :: n in entries ==> !Stale(n, entries[n], pidExists)
      ensures !ok && readable ==> exists n :: n in entries && Stale(n, entries[n], pidExists) && !removable(n)
    {
      if !present { return true; }
      if !readable { return false; }
      var listing := entries;
      var names := listing.Keys;
      while names != {}
        invariant names <= entries.Keys <= listing.Keys
        invariant forall n :: n in entries ==> entries[n] == listing[n]
        invariant forall n :: n in listing && n !in entries ==>
                    Stale(n, listing[n], pidExists) && removable(n) && "vfkit-cloudinit-" <= n
        invariant forall n :: n in entries && n !in names ==> !Stale(n, entries[n], pidExists)
        decreases |names|
      {
        var filename :| filename in names;
        names := names - {filename};
        StaleMeaning(filename, listing[filename], pidExists);
        if listing[filename] { continue; }
        var pid := ScanPid(filename);
        if pid.None? { continue; }
        var exist := pidExists(pid.value);
        if exist.None? || exist.value { continue; }
        if !removable(filename) { return false; }
        entries := entries - {filename};
      }
      return true;
    }
  }

  // ---------- Any number of processes over one directory ----------

  /** Where a process is: not cleaning, walking a listing, or about to remove a file whose creator it found gone. */
  datatype Phase =
    | Idle
    | Cleaning(todo: seq<(string, bool)>)
    | Removing(name: string, rest: seq<(string, bool)>)

  datatype Process = Process(pid: nat, alive: bool, phase: Phase)

  /** owner is the index of the process that created the file, if it was one of these processes. */
  datatype File = File(owner: Option<nat>, isDir: bool)

  /** isos: images created and not yet removed by their own creator; used: every name there ever was. */
  datatype State = State(procs: seq<Process>, dir: map<string, File>, isos: map<string, nat>, used: set<string>)

  datatype Action =
    | Start(pid: nat)
    | Exit(p: nat)
    | Create(p: nat, random: string)
    | RemoveOwn(p: nat, name: string)
    | Foreign(name: string, isDir: bool)
    | ForeignRemove(name: string)
    | List(p: nat, listing: seq<(string, bool)>)
    | Skip(p: nat)
    | Test(p: nat)
    | Remove(p: nat)
    | Abandon(p: nat)

  predicate Alive(s: State, p: nat) { p < |s.procs| && s.procs[p].alive }

  predicate PidTaken(s: State, pid: int) { exists q :: 0 <= q < |s.procs| && s.procs[q].alive && s.procs[q].pid == pid }

  function SetPhase(s: State, p: nat, phase: Phase): State
    requires p < |s.procs|
  {
    s.(procs := s.procs[p := s.procs[p].(phase := phase)])
  }

  /** A step of one process or of the outside world; none when it is not possible. A process may skip an entry for
      any reason, list the directory in any order, and give up a cleanup at any point. */
  function Apply(s: State, a: Action): Option<State> {
    match a
    case Start(pid) =>
      if 0 < pid <= MAX_INT32 then Some(s.(procs := s.procs + [Process(pid, true, Idle)])) else None
    case Exit(p) =>
      if Alive(s, p) then Some(s.(procs := s.procs[p := s.procs[p].(alive := false)])) else None
    case Create(p, random) =>
      if !Alive(s, p) then None
      else
        var name := IsoName(s.procs[p].pid, random);
        if name in s.dir then None
        else Some(s.(dir := s.dir[name := File(Some(p), false)], isos := s.isos[name := p], used := s.used + {name}))
    case RemoveOwn(p, name) =>
      if Alive(s, p) && name in s.dir && s.dir[name].owner == Some(p) then
        Some(s.(dir := s.dir - {name}, isos := s.isos - {name}))
      else None
    case Foreign(name, isDir) =>
      if name in s.dir then None else Some(s.(dir := s.dir[name := File(None, isDir)], used := s.used + {name}))
    case ForeignRemove(name) =>
      if name in s.dir && s.dir[name].owner.None? then Some(s.(dir := s.dir - {name})) else None
    case List(p, listing) =>
      if Alive(s, p) && s.procs[p].phase.Idle?
         && forall e :: e in listing ==> e.0 in s.dir && s.dir[e.0].isDir == e.1
      then Some(SetPhase(s, p, Cleaning(listing))) else None
    case Skip(p) =>
      if Alive(s, p) && s.procs[p].phase.Cleaning? && s.procs[p].phase.todo != [] then
        Some(SetPhase(s, p, Cleaning(s.procs[p].phase.todo[1..])))
      else None
    case Test(p) =>
      if Alive(s, p) && s.procs[p].phase.Cleaning? && s.procs[p].phase.todo != [] then
        var (name, isDir) := s.procs[p].phase.todo[0];
        if isDir || ScanPid(name).None? || ScanPid(name).value <= 0 || PidTaken(s, ScanPid(name).value) then None
        else Some(SetPhase(s, p, Removing(name, s.procs[p].phase.todo[1..])))
      else None
    case Remove(p) =>
      if Alive(s, p) && s.procs[p].phase.Removing? then
        var name := s.procs[p].phase.name;
        if name in s.dir then Some(SetPhase(s.(dir := s.dir - {name}), p, Cleaning(s.procs[p].phase.rest)))
        else Some(SetPhase(s, p, Idle))
      else None
    case Abandon(p) =>
      if Alive(s, p) then Some(SetPhase(s, p, Idle)) else None
  }

  /** A directory with whatever earlier boots left in it, and no process yet. */
  ghost predicate Initial(s: State) {
    && s.procs == [] && s.isos == map[] && s.used == s.dir.Keys
    && forall n :: n in s.dir ==> s.dir[n].owner.None?
  }

  /** The step removes an image whose creator is alive. */
  predicate RemovesLive(s: State, a: Action) {
    && a.Remove? && Alive(s, a.p) && s.procs[a.p].phase.Removing?
    && var name := s.procs[a.p].phase.name;
       name in s.dir && s.dir[name].owner.Some? && Alive(s, s.dir[name].owner.value)
  }

  /** No step from s removes an image whose creator is alive. */
  ghost predicate NoLiveRemoval(s: State) { forall a :: Apply(s, a).Some? ==> !RemovesLive(s, a) }

  ghost predicate SafeAlong(s: State, run: seq<Action>)
    decreases |run|
  {
    NoLiveRemoval(s) && (run != [] && Apply(s, run[0]).Some? ==> SafeAlong(Apply(s, run[0]).value, run[1..]))
  }

  /** Process p found the creator of this name gone, and is about to remove the file. */
  predicate Dooms(s: State, p: nat, name: string) {
    Alive(s, p) && s.procs[p].phase.Removing? && s.procs[p].phase.name == name
  }

  /** The step creates an image under a name that some process is about to remove. */
  ghost predicate Hits(s: State, a: Action) {
    a.Create? && Alive(s, a.p) && exists q :: Dooms(s, q, IsoName(s.procs[a.p].pid, a.random))
  }

  ghost predicate HitsNothing(s: State, run: seq<Action>)
    decreases |run|
  {
    run == [] || (!Hits(s, run[0]) && (Apply(s, run[0]).Some? ==> HitsNothing(Apply(s, run[0]).value, run[1..])))
  }

  // ---------- What every step keeps ----------

  ghost predicate OwnersNamed(s: State) {
    forall n :: n in s.dir && s.dir[n].owner.Some? ==>
      s.dir[n].owner.value < |s.procs| && ScanPid(n) == Some(s.procs[s.dir[n].owner.value].pid)
  }

  /** A file about to be removed has no live creator. */
  ghost predicate DoomedAreDead(s: State) {
    forall p, n :: Dooms(s, p, n) && n in s.dir && s.dir[n].owner.Some? ==> !Alive(s, s.dir[n].owner.value)
  }

  ghost predicate DoomedAreNamed(s: State) { forall p, n :: Dooms(s, p, n) ==> ScanPid(n).Some? }

  /** Every image of a live process that did not remove it itself is in place. */
  ghost predicate LiveInPlace(s: State) {
    forall n :: n in s.isos ==>
      && s.isos[n] < |s.procs|
      && (Alive(s, s.isos[n]) ==> n in s.dir && s.dir[n] == File(Some(s.isos[n]), false))
  }

  ghost predicate OwnersListed(s: State) {
    forall n :: n in s.dir && s.dir[n].owner.Some? ==> n in s.isos && s.isos[n] == s.dir[n].owner.value
  }

  ghost predicate PidsInRange(s: State) { forall p :: 0 <= p < |s.procs| ==> 0 < s.procs[p].pid <= MAX_INT32 }

  ghost predicate Inv(s: State) {
    && OwnersNamed(s) && PidsInRange(s) && OwnersListed(s) && DoomedAreNamed(s)
    && DoomedAreDead(s) && LiveInPlace(s)
  }

  /** A process comes to doom a name only by a test: the name was listed as a plain file, it carries a process id,
      and no live process has that id. */
  lemma NewlyDoomed(s: State, a: Action, p: nat, name: string)
    requires Apply(s, a).Some? && Dooms(Apply(s, a).value, p, name) && !Dooms(s, p, name)
    ensures a == Test(p) && s.procs[p].phase.Cleaning? && s.procs[p].phase.todo != []
    ensures s.procs[p].phase.todo[0] == (name, false)
    ensures exists pid: int :: CarriesPid(name, pid) && pid > 0
              && forall q :: 0 <= q < |s.procs| && s.procs[q].alive ==> s.procs[q].pid != pid
  {
    ScanPidMeaning(name, ScanPid(name).value);
  }

  lemma OwnersNamedKept(s: State, a: Action)
    requires OwnersNamed(s) && PidsInRange(s) && Apply(s, a).Some?
    ensures OwnersNamed(Apply(s, a).value)
  {
    if a.Create? { NameCarriesPid(s.procs[a.p].pid, a.random); }
  }

  lemma PidsInRangeKept(s: State, a: Action)
    requires PidsInRange(s) && Apply(s, a).Some?
    ensures PidsInRange(Apply(s, a).value)
  {
  }

  lemma DoomedAreNamedKept(s: State, a: Action)
    requires DoomedAreNamed(s) && Apply(s, a).Some?
    ensures DoomedAreNamed(Apply(s, a).value)
  {
    forall p, n | Dooms(Apply(s, a).value, p, n) ensures ScanPid(n).Some? {
      if !(a.Test? && a.p == p) { assert Dooms(s, p, n); }
    }
  }

  lemma DoomedAreDeadKept(s: State, a: Action)
    requires OwnersNamed(s) && DoomedAreDead(s) && !Hits(s, a) && Apply(s, a).Some?
    ensures DoomedAreDead(Apply(s, a).value)
  {
    var t := Apply(s, a).value;
    forall p, n | Dooms(t, p, n) && n in t.dir && t.dir[n].owner.Some?
      ensures !Alive(t, t.dir[n].owner.value)
    {
      if !(a.Test? && a.p == p) { assert Dooms(s, p, n); }
    }
  }

  lemma OwnersListedKept(s: State, a: Action)
    requires OwnersListed(s) && OwnersNamed(s) && Apply(s, a).Some?
    ensures OwnersListed(Apply(s, a).value)
  {
  }

  lemma LiveInPlaceKept(s: State, a: Action)
    requires LiveInPlace(s) && DoomedAreDead(s) && Apply(s, a).Some?
    ensures LiveInPlace(Apply(s, a).value)
  {
    if a.Remove? { assert Dooms(s, a.p, s.procs[a.p].phase.name); }
  }

  /** Whatever a step does short of creating an image that is about to be removed, the invariant stays. */
  lemma InvKept(s: State, a: Action)
    requires Inv(s) && !Hits(s, a) && Apply(s, a).Some?
    ensures Inv(Apply(s, a).value)
  {
    OwnersNamedKept(s, a);
    PidsInRangeKept(s, a);
    OwnersListedKept(s, a);
    DoomedAreNamedKept(s, a);
    DoomedAreDeadKept(s, a);
    LiveInPlaceKept(s, a);
  }

  lemma InvIsSafe(s: State)
    requires DoomedAreDead(s)
    ensures NoLiveRemoval(s)
  {
    forall a | Apply(s, a).Some? ensures !RemovesLive(s, a) {
      if RemovesLive(s, a) { assert Dooms(s, a.p, s.procs[a.p].phase.name); }
    }
  }

  /** After a hit, the process that holds the name can remove the new image at once. */
  lemma HitIsUnsafe(s: State, a: Action)
    requires Hits(s, a) && Apply(s, a).Some?
    ensures !NoLiveRemoval(Apply(s, a).value)
  {
    var name, t := IsoName(s.procs[a.p].pid, a.random), Apply(s, a).value;
    var q :| Dooms(s, q, name);
    assert t.procs == s.procs && t.dir[name] == File(Some(a.p), false);
    assert Apply(t, Remove(q)).Some? && RemovesLive(t, Remove(q));
  }

  lemma {:induction false} SafeFrom(s: State, run: seq<Action>)
    requires Inv(s) && Fold(Apply, s, run).Some?
    ensures SafeAlong(s, run) <==> HitsNothing(s, run)
    ensures HitsNothing(s, run) ==> Inv(Fold(Apply, s, run).value)
    decreases |run|
  {
    InvIsSafe(s);
    if run != [] {
      if Hits(s, run[0]) {
        HitIsUnsafe(s, run[0]);
      } else {
        InvKept(s, run[0]);
        SafeFrom(Apply(s, run[0]).value, run[1..]);
      }
    }
  }

  /** Over every interleaving of any number of processes: no image of a live process can be removed at any point,
      exactly when no image is created under a name that a process is about to remove. Images of live processes are
      then in place. */
  lemma CleanupIsSafe(start: State, run: seq<Action>)
    requires Initial(start) && Fold(Apply, start, run).Some?
    ensures SafeAlong(start, run) <==> HitsNothing(start, run)
    ensures HitsNothing(start, run) ==> LiveInPlace(Fold(Apply, start, run).value)
  {
    SafeFrom(start, run);
  }

  /** A removal from s touches only one entry, and its name carries a process id behind vfkit's prefix. */
  ghost predicate OnlyNamedRemoved(s: State) {
    forall p: nat :: Apply(s, Remove(p)).Some? ==>
      var name := s.procs[p].phase.name;
      && "vfkit-cloudinit-" <= name && (exists pid :: CarriesPid(name, pid))
      && Apply(s, Remove(p)).value.dir == s.dir - {name}
  }

  /** This holds of every run, whatever names it creates. */
  lemma {:induction false} NamesFrom(s: State, run: seq<Action>)
    requires DoomedAreNamed(s) && Fold(Apply, s, run).Some?
    ensures OnlyNamedRemoved(Fold(Apply, s, run).value)
    decreases |run|
  {
    if run != [] {
      DoomedAreNamedKept(s, run[0]);
      NamesFrom(Apply(s, run[0]).value, run[1..]);
    } else {
      forall p: nat | Apply(s, Remove(p)).Some?
        ensures "vfkit-cloudinit-" <= s.procs[p].phase.name && exists pid :: CarriesPid(s.procs[p].phase.name, pid)
        ensures Apply(s, Remove(p)).value.dir == s.dir - {s.procs[p].phase.name}
      {
        var name := s.procs[p].phase.name;
        assert Dooms(s, p, name);
        ScanPidMeaning(name, ScanPid(name).value);
      }
    }
  }

  lemma ForeignNamesKept(start: State, run: seq<Action>)
    requires Initial(start) && Fold(Apply, start, run).Some?
    ensures OnlyNamedRemoved(Fold(Apply, start, run).value)
  {
    NamesFrom(start, run);
  }

  // ---------- Names that never come back ----------

  /** The random part of a new image makes a name that was never there before. */
  predicate FreshName(s: State, a: Action) {
    a.Create? && a.p < |s.procs| ==> IsoName(s.procs[a.p].pid, a.random) !in s.used
  }

  predicate FreshRun(s: State, run: seq<Action>)
    decreases |run|
  {
    run == [] || (FreshName(s, run[0]) && (Apply(s, run[0]).Some? ==> FreshRun(Apply(s, run[0]).value, run[1..])))
  }

  /** Every name a process has listed, or is about to remove. */
  ghost predicate PhaseUsed(phase: Phase, used: set<string>) {
    match phase
    case Idle => true
    case Cleaning(todo) => forall e :: e in todo ==> e.0 in used
    case Removing(name, rest) => name in used && forall e :: e in rest ==> e.0 in used
  }

  ghost predicate NamesUsed(s: State) {
    s.dir.Keys <= s.used && forall p :: 0 <= p < |s.procs| ==> PhaseUsed(s.procs[p].phase, s.used)
  }

  lemma NamesUsedKept(s: State, a: Action)
    requires NamesUsed(s) && Apply(s, a).Some?
    ensures NamesUsed(Apply(s, a).value)
  {
    var t := Apply(s, a).value;
    assert s.used <= t.used;
    forall p | 0 <= p < |t.procs| ensures PhaseUsed(t.procs[p].phase, t.used) {
      if p < |s.procs| { assert PhaseUsed(s.procs[p].phase, s.used); }
    }
  }

  lemma {:induction false} FreshHitsNothing(s: State, run: seq<Action>)
    requires NamesUsed(s) && FreshRun(s, run)
    ensures HitsNothing(s, run)
    decreases |run|
  {
    if run != [] && Apply(s, run[0]).Some? {
      NamesUsedKept(s, run[0]);
      FreshHitsNothing(Apply(s, run[0]).value, run[1..]);
    }
  }

  /** Names that never come back are enough. */
  lemma FreshNamesAreSafe(start: State, run: seq<Action>)
    requires Initial(start) && FreshRun(start, run) && Fold(Apply, start, run).Some?
    ensures SafeAlong(start, run) && LiveInPlace(Fold(Apply, start, run).value)
  {
    FreshHitsNothing(start, run);
    CleanupIsSafe(start, run);
  }

  // ---------- A run in which a name does come back ----------

  const EMPTY_STATE := State([], map[], map[], {})

  lemma OneMore(run: seq<Action>, s: State, a: Action)
    requires Fold(Apply, EMPTY_STATE, run) == Some(s) && Apply(s, a).Some?
    ensures Fold(Apply, EMPTY_STATE, run + [a]) == Apply(s, a)
  {
    FoldSnoc(Apply, EMPTY_STATE, run, a);
  }

  const SEVEN := Process(7, true, Idle)
  const EIGHT := Process(8, true, Idle)
  const NINE := Process(9, true, Idle)

  /** Process 0 makes an image, and two more processes start. */
  lemma ThreeStarted(name: string) returns (run: seq<Action>)
    requires name == IsoName(7, "1")
    ensures Fold(Apply, EMPTY_STATE, run)
         == Some(State([SEVEN, EIGHT, NINE], map[name := File(Some(0), false)], map[name := 0], {name}))
  {
    OneMore([], EMPTY_STATE, Start(7));
    var s1 := Apply(EMPTY_STATE, Start(7)).value;
    assert s1.procs == [SEVEN];
    run := [] + [Start(7)];
    OneMore(run, s1, Create(0, "1"));
    var s2 := Apply(s1, Create(0, "1")).value;
    assert s2 == State([SEVEN], map[name := File(Some(0), false)], map[name := 0], {name});
    run := run + [Create(0, "1")];
    OneMore(run, s2, Start(8));
    var s3 := Apply(s2, Start(8)).value;
    assert s3.procs == [SEVEN, EIGHT];
    run := run + [Start(8)];
    OneMore(run, s3, Start(9));
    assert Apply(s3, Start(9)).value.procs == [SEVEN, EIGHT, NINE];
    run := run + [Start(9)];
  }

  /** Both of them list it, and its creator dies. */
  lemma TwoListings(name: string) returns (run: seq<Action>)
    requires name == IsoName(7, "1")
    ensures Fold(Apply, EMPTY_STATE, run)
         == Some(State([SEVEN.(alive := false), EIGHT.(phase := Cleaning([(name, false)])),
                        NINE.(phase := Cleaning([(name, false)]))],
                       map[name := File(Some(0), false)], map[name := 0], {name}))
  {
    var listing := [(name, false)];
    run := ThreeStarted(name);
    var s0 := Fold(Apply, EMPTY_STATE, run).value;
    OneMore(run, s0, List(1, listing));
    var s1 := Apply(s0, List(1, listing)).value;
    run := run + [List(1, listing)];
    OneMore(run, s1, List(2, listing));
    var s2 := Apply(s1, List(2, listing)).value;
    run := run + [List(2, listing)];
    OneMore(run, s2, Exit(0));
    run := run + [Exit(0)];
    assert Apply(s2, Exit(0)).value.procs
        == [SEVEN.(alive := false), EIGHT.(phase := Cleaning(listing)), NINE.(phase := Cleaning(listing))];
  }

  lemma Tested(s: State, p: nat, name: string)
    requires Alive(s, p) && s.procs[p].phase == Cleaning([(name, false)])
    requires ScanPid(name) == Some(7) && !PidTaken(s, 7)
    ensures Apply(s, Test(p)) == Some(SetPhase(s, p, Removing(name, [])))
  {
    assert [(name, false)][1..] == [];
  }

  /** Both find the creator gone. */
  lemma TwoTests(name: string) returns (run: seq<Action>)
    requires name == IsoName(7, "1")
    ensures Fold(Apply, EMPTY_STATE, run)
         == Some(State([SEVEN.(alive := false), EIGHT.(phase := Removing(name, [])),
                        NINE.(phase := Removing(name, []))],
                       map[name := File(Some(0), false)], map[name := 0], {name}))
  {
    NameCarriesPid(7, "1");
    run := TwoListings(name);
    var s0 := Fold(Apply, EMPTY_STATE, run).value;
    var s1 := SetPhase(s0, 1, Removing(name, []));
    Tested(s0, 1, name);
    OneMore(run, s0, Test(1));
    run := run + [Test(1)];
    assert s1.procs
        == [SEVEN.(alive := false), EIGHT.(phase := Removing(name, [])), NINE.(phase := Cleaning([(name, false)]))];
    Tested(s1, 2, name);
    OneMore(run, s1, Test(2));
    run := run + [Test(2)];
    assert SetPhase(s1, 2, Removing(name, [])).procs
        == [SEVEN.(alive := false), EIGHT.(phase := Removing(name, [])), NINE.(phase := Removing(name, []))];
  }

  /** Process 2 removes the image, and a new process 3 with id 7 creates it again. */
  lemma ReusedName(name: string) returns (run: seq<Action>)
    requires name == IsoName(7, "1")
    ensures Fold(Apply, EMPTY_STATE, run)
         == Some(State([SEVEN.(alive := false), EIGHT.(phase := Removing(name, [])),
                        NINE.(phase := Cleaning([])), SEVEN],
                       map[name := File(Some(3), false)], map[name := 3], {name}))
  {
    run := TwoTests(name);
    var s0 := Fold(Apply, EMPTY_STATE, run).value;
    OneMore(run, s0, Remove(2));
    var s1 := Apply(s0, Remove(2)).value;
    assert s1.dir == map[];
    run := run + [Remove(2)];
    OneMore(run, s1, Start(7));
    var s2 := Apply(s1, Start(7)).value;
    assert s2.procs
        == [SEVEN.(alive := false), EIGHT.(phase := Removing(name, [])), NINE.(phase := Cleaning([])), SEVEN];
    run := run + [Start(7)];
    OneMore(run, s2, Create(3, "1"));
    assert s2.dir[name := File(Some(3), false)] == map[name := File(Some(3), false)];
    assert s2.isos[name := 3] == map[name := 3] && s2.used + {name} == {name};
    run := run + [Create(3, "1")];
  }

  /** The condition is not always met: a process id and a random part can both come back. */
  lemma ReuseIsUnsafe()
    ensures exists run :: Initial(EMPTY_STATE) && Fold(Apply, EMPTY_STATE, run).Some?
              && !NoLiveRemoval(Fold(Apply, EMPTY_STATE, run).value)
  {
    var run := ReusedName(IsoName(7, "1"));
    var s := Fold(Apply, EMPTY_STATE, run).value;
    assert Apply(s, Remove(1)).Some? && RemovesLive(s, Remove(1));
    assert !NoLiveRemoval(s);
  }
}
