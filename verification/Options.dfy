/** Key/value options, and what reading a list of them one by one into a state means. */
module Options {
  import opened Text

  datatype Opt = Opt(key: string, value: string)

  /** strings.SplitN(str, "=", 2): everything after the first '=' is the value. */
  function StrToOption(str: string): Opt {
    var i := IndexOf(str, '=');
    Opt(str[..i], if i < |str| then str[i+1..] else "")
  }

  function OneOption(str: string): seq<Opt> { if str == "" then [] else [StrToOption(str)] }

  /** Empty strings are skipped, the others become options in order. */
  function OptionsOf(strv: seq<string>): seq<Opt> { FlatMap(OneOption, strv) }

  function FlatMap<A, B>(f: A -> seq<B>, items: seq<A>): seq<B> {
    if items == [] then [] else f(items[0]) + FlatMap(f, items[1..])
  }

  lemma {:induction false} FlatMapConcat<A, B>(f: A -> seq<B>, a: seq<A>, b: seq<A>)
    ensures FlatMap(f, a + b) == FlatMap(f, a) + FlatMap(f, b)
  {
    if a == [] {
      assert a + b == b;
    } else {
      assert (a + b)[0] == a[0] && (a + b)[1..] == a[1..] + b;
      FlatMapConcat(f, a[1..], b);
      Regroup(f(a[0]), FlatMap(f, a[1..]), FlatMap(f, b));
    }
  }

  lemma LoneText(str: string)
    ensures OptionsOf([str]) == OneOption(str)
  {
    assert [str][1..] == [];
    assert FlatMap(OneOption, []) == [];
    assert FlatMap(OneOption, [str]) == OneOption(str) + FlatMap(OneOption, [str][1..]);
    assert OneOption(str) + [] == OneOption(str);
  }

  method StrvToOptions(strv: seq<string>) returns (parsed: seq<Opt>)
    ensures parsed == OptionsOf(strv)
  {
    parsed := [];
    for i := 0 to |strv|
      invariant parsed == OptionsOf(strv[..i])
    {
      assert strv[..i+1] == strv[..i] + [strv[i]];
      OptionsOfConcat(strv[..i], [strv[i]]);
      LoneText(strv[i]);
      if strv[i] == "" { continue; }
      parsed := parsed + [StrToOption(strv[i])];
    }
    assert strv[..|strv|] == strv;
  }

  /** The options written in one comma-separated text. */
  function TextOptions(text: string): seq<Opt> { OptionsOf(Split(text, ',')) }

  /** How a printer appends one option to a text. */
  function Setting(key: string, value: string): string { "," + key + "=" + value }

  function Flag(key: string): string { "," + key }

  lemma Regroup<T>(a: seq<T>, b: seq<T>, c: seq<T>)
    ensures a + (b + c) == (a + b) + c
  {
  }

  lemma OptionsOfConcat(a: seq<string>, b: seq<string>)
    ensures OptionsOf(a + b) == OptionsOf(a) + OptionsOf(b)
  {
    FlatMapConcat(OneOption, a, b);
  }

  lemma StrToOptionParts(key: string, value: string)
    requires '=' !in key
    ensures StrToOption(key + "=" + value) == Opt(key, value)
    ensures StrToOption(key) == Opt(key, "")
  {
    var str := key + "=" + value;
    var i := IndexOf(str, '=');
    assert str[..|key|] == key;
    IndexOfAt(str, '=', |key|);
    assert str[..i] == key;
    assert str[i+1..] == value;
    assert key[..|key|] == key;
    IndexOfAt(key, '=', |key|);
  }

  /** A printer's appended setting reads back as exactly that option, after the earlier ones. */
  lemma AppendedSetting(text: string, key: string, value: string)
    requires ',' !in key && '=' !in key
    requires ',' !in value
    ensures TextOptions(text + Setting(key, value)) == TextOptions(text) + [Opt(key, value)]
  {
    var field := key + "=" + value;
    assert text + Setting(key, value) == text + [','] + field;
    SplitConcat(text, field, ',');
    SplitPlain(field, ',');
    OptionsOfConcat(Split(text, ','), [field]);
    StrToOptionParts(key, value);
    LoneText(field);
  }

  lemma AppendedFlag(text: string, key: string)
    requires ',' !in key && '=' !in key && key != ""
    ensures TextOptions(text + Flag(key)) == TextOptions(text) + [Opt(key, "")]
  {
    assert text + Flag(key) == text + [','] + key;
    SplitConcat(text, key, ',');
    SplitPlain(key, ',');
    OptionsOfConcat(Split(text, ','), [key]);
    StrToOptionParts(key, "");
    LoneText(key);
  }

  /** A text that is one setting alone. */
  lemma LoneSetting(key: string, value: string)
    requires ',' !in key && '=' !in key
    requires ',' !in value
    ensures TextOptions(key + "=" + value) == [Opt(key, value)]
  {
    var field := key + "=" + value;
    SplitPlain(field, ',');
    StrToOptionParts(key, value);
    LoneText(field);
  }

  ghost predicate CommaFree(o: Opt) { ',' !in o.key && ',' !in o.value }

  lemma {:induction false} OptionsOfCommaFree(strv: seq<string>)
    requires forall i :: 0 <= i < |strv| ==> ',' !in strv[i]
    ensures forall o :: o in OptionsOf(strv) ==> CommaFree(o)
  {
    if strv != [] { OptionsOfCommaFree(strv[1..]); }
  }

  // ---------- Reading items one by one, stopping at the first one refused ----------

  function Fold<S, T>(step: (S, T) -> Option<S>, s: S, items: seq<T>): Option<S> {
    if items == [] then Some(s)
    else
      match step(s, items[0])
      case None => None
      case Some(t) => Fold(step, t, items[1..])
  }

  function Resume<S, T>(step: (S, T) -> Option<S>, r: Option<S>, items: seq<T>): Option<S> {
    match r
    case None => None
    case Some(s) => Fold(step, s, items)
  }

  function Then<S, T>(r: Option<S>, step: (S, T) -> Option<S>, item: T): Option<S> {
    match r
    case None => None
    case Some(s) => step(s, item)
  }

  lemma {:induction false} FoldConcat<S, T>(step: (S, T) -> Option<S>, s: S, a: seq<T>, b: seq<T>)
    ensures Fold(step, s, a + b) == Resume(step, Fold(step, s, a), b)
  {
    if a == [] {
      assert a + b == b;
    } else {
      assert (a + b)[1..] == a[1..] + b;
      match step(s, a[0])
      case None =>
      case Some(t) => FoldConcat(step, t, a[1..], b);
    }
  }

  lemma FoldOne<S, T>(step: (S, T) -> Option<S>, s: S, item: T)
    ensures Fold(step, s, [item]) == step(s, item)
  {
    match step(s, item)
    case None =>
    case Some(t) => assert [item][1..] == [];
  }

  lemma FoldSnoc<S, T>(step: (S, T) -> Option<S>, s: S, a: seq<T>, item: T)
    ensures Fold(step, s, a + [item]) == Then(Fold(step, s, a), step, item)
  {
    FoldConcat(step, s, a, [item]);
    match Fold(step, s, a)
    case None =>
    case Some(t) => FoldOne(step, t, item);
  }

  /** What every accepted item keeps, a whole reading keeps. */
  lemma {:induction false} FoldKeeps<S, T>(step: (S, T) -> Option<S>, s: S, items: seq<T>, inv: S -> bool)
    requires inv(s)
    requires forall t, item :: item in items && inv(t) && step(t, item).Some? ==> inv(step(t, item).value)
    ensures Fold(step, s, items).Some? ==> inv(Fold(step, s, items).value)
  {
    if items != [] && step(s, items[0]).Some? {
      FoldKeeps(step, step(s, items[0]).value, items[1..], inv);
    }
  }

  /** Reading x then y is the same, whatever the state, as reading y then x. */
  ghost predicate Commute<S(!new), T>(step: (S, T) -> Option<S>, x: T, y: T) {
    forall s :: Then(step(s, x), step, y) == Then(step(s, y), step, x)
  }

  lemma {:induction false} CommutePast<S(!new), T>(step: (S, T) -> Option<S>, s: S, a: seq<T>, x: T)
    requires forall y :: y in a ==> Commute(step, x, y)
    ensures Resume(step, step(s, x), a) == Then(Fold(step, s, a), step, x)
  {
    if a != [] {
      assert Commute(step, x, a[0]);
      assert Then(step(s, x), step, a[0]) == Then(step(s, a[0]), step, x);
      match step(s, x)
      case None =>
        match step(s, a[0]) {
          case None =>
          case Some(t) => CommutePast(step, t, a[1..], x);
        }
      case Some(u) =>
        match step(s, a[0]) {
          case None =>
          case Some(t) => CommutePast(step, t, a[1..], x);
        }
    }
  }

  // ---------- Two passes over one list ----------

  /** The items one loop handles, and the ones it sets aside for a second loop. */
  function Select<T>(early: T -> bool, items: seq<T>): seq<T> {
    if items == [] then []
    else if early(items[0]) then [items[0]] + Select(early, items[1..])
    else Select(early, items[1..])
  }

  function SetAside<T>(early: T -> bool, items: seq<T>): seq<T> {
    if items == [] then []
    else if early(items[0]) then SetAside(early, items[1..])
    else [items[0]] + SetAside(early, items[1..])
  }

  lemma SelectAt<T>(early: T -> bool, items: seq<T>, i: nat)
    requires i < |items|
    ensures Select(early, items[i..])
         == if early(items[i]) then [items[i]] + Select(early, items[i+1..]) else Select(early, items[i+1..])
  {
    assert items[i..][1..] == items[i+1..];
  }

  lemma {:induction false} SelectMembers<T>(early: T -> bool, items: seq<T>)
    ensures forall x :: x in Select(early, items) ==> x in items && early(x)
    ensures forall x :: x in SetAside(early, items) ==> x in items && !early(x)
  {
    if items != [] { SelectMembers(early, items[1..]); }
  }

  /** Selecting goes through a list piece by piece, and keeps or drops each single item. */
  lemma {:induction false} SelectConcat<T>(early: T -> bool, a: seq<T>, b: seq<T>)
    ensures Select(early, a + b) == Select(early, a) + Select(early, b)
  {
    if a == [] {
      assert a + b == b;
    } else {
      assert (a + b)[1..] == a[1..] + b;
      SelectConcat(early, a[1..], b);
    }
  }

  lemma SelectOne<T>(early: T -> bool, item: T)
    ensures Select(early, [item]) == if early(item) then [item] else []
  {
    assert [item][1..] == [];
  }

  lemma {:induction false} SelectSame<T>(f: T -> bool, g: T -> bool, items: seq<T>)
    requires forall x :: f(x) <==> g(x)
    ensures Select(f, items) == Select(g, items)
  {
    if items != [] { SelectSame(f, g, items[1..]); }
  }

  ghost predicate LateCommute<S(!new), T>(step: (S, T) -> Option<S>, early: T -> bool, items: seq<T>) {
    forall x, y :: x in items && y in items && early(x) && !early(y) ==> Commute(step, y, x)
  }

  lemma LateCommutesPast<S(!new), T>(step: (S, T) -> Option<S>, early: T -> bool, s: S, items: seq<T>)
    requires items != [] && !early(items[0])
    requires LateCommute(step, early, items)
    ensures var a := Select(early, items[1..]);
            Then(Fold(step, s, a), step, items[0]) == Resume(step, step(s, items[0]), a)
  {
    var a := Select(early, items[1..]);
    SelectMembers(early, items[1..]);
    forall x | x in a ensures Commute(step, items[0], x) {
      assert x in items;
    }
    CommutePast(step, s, a, items[0]);
  }

  /** Reading first the items of one class and then the rest is one reading of the whole list. */
  lemma {:induction false} TwoPasses<S(!new), T>(step: (S, T) -> Option<S>, early: T -> bool, s: S, items: seq<T>)
    requires LateCommute(step, early, items)
    ensures Resume(step, Fold(step, s, Select(early, items)), SetAside(early, items)) == Fold(step, s, items)
  {
    if items != [] {
      var o, rest := items[0], items[1..];
      var a, b := Select(early, rest), SetAside(early, rest);
      assert LateCommute(step, early, rest) by {
        forall x, y | x in rest && y in rest && early(x) && !early(y) ensures Commute(step, y, x) {
          assert x in items && y in items;
        }
      }
      if step(s, o).Some? { TwoPasses(step, early, step(s, o).value, rest); }
      if early(o) {
        assert ([o] + a)[1..] == a;
      } else {
        LateCommutesPast(step, early, s, items);
        assert ([o] + b)[1..] == b;
      }
    }
  }

  // ---------- What a list says, by the last option for each key ----------

  /** The value of the last option with this key. */
  function ValueOf(key: string, opts: seq<Opt>): Option<string> {
    if opts == [] then None
    else if opts[|opts|-1].key == key then Some(opts[|opts|-1].value)
    else ValueOf(key, opts[..|opts|-1])
  }

  predicate Given(key: string, opts: seq<Opt>) { ValueOf(key, opts).Some? }

  function TextOf(key: string, opts: seq<Opt>): string { ValueOf(key, opts).GetOr("") }

  lemma ValueSnoc(key: string, opts: seq<Opt>, o: Opt)
    ensures ValueOf(key, opts + [o]) == if o.key == key then Some(o.value) else ValueOf(key, opts)
  {
    assert (opts + [o])[..|opts|] == opts;
  }

  lemma {:induction false} ValueIn(key: string, opts: seq<Opt>)
    ensures Given(key, opts) ==> Opt(key, TextOf(key, opts)) in opts
  {
    if opts != [] {
      var a, o := opts[..|opts|-1], opts[|opts|-1];
      assert opts == a + [o];
      assert o.key == key ==> o == Opt(key, o.value);
      ValueIn(key, a);
    }
  }

  lemma {:induction false} GivenMeaning(key: string, opts: seq<Opt>)
    ensures Given(key, opts) <==> exists o :: o in opts && o.key == key
  {
    if opts != [] {
      var a, o := opts[..|opts|-1], opts[|opts|-1];
      assert opts == a + [o];
      GivenMeaning(key, a);
    }
  }

  /** A reader that moves from what a list describes to what one more option makes it describe, and refuses just the
      options that do not fit, reads the whole list that way. */
  lemma {:induction false} FoldDescribes<S(!new)>(
    step: (S, Opt) -> Option<S>, fits: Opt -> bool, described: seq<Opt> -> S,
                                                 opts: seq<Opt>)
    requires forall a, o :: step(described(a), o) == if fits(o) then Some(described(a + [o])) else None
    ensures Fold(step, described([]), opts)
         == if forall o :: o in opts ==> fits(o) then Some(described(opts)) else None
  {
    if opts != [] {
      var a, o := opts[..|opts|-1], opts[|opts|-1];
      assert opts == a + [o];
      FoldDescribes(step, fits, described, a);
      FoldSnoc(step, described([]), a, o);
    }
  }
}
