/** The quote-aware list syntax of --bootloader and --cloud-init, and the flag value that accumulates it. */
module StringSlice {
  import opened Text

  // ---------- Quotes ----------

  predicate EndsWithQuote(s: string) { s != "" && s[|s|-1] == '"' }

  function TrimLeft(s: string): string {
    if s != "" && s[0] == '"' then TrimLeft(s[1..]) else s
  }

  function TrimRight(s: string): string {
    if EndsWithQuote(s) then TrimRight(s[..|s|-1]) else s
  }

  /** Quotes are stripped only from a text that both starts and ends with one, but then all of them. */
  function TrimQuotes(s: string): string {
    if s != "" && s[0] == '"' && EndsWithQuote(s) then TrimRight(TrimLeft(s)) else s
  }

  predicate AllQuotes(s: string) { forall c :: c in s ==> c == '"' }

  lemma {:induction false} LeftTrimmed(s: string) returns (i: nat)
    ensures i <= |s| && AllQuotes(s[..i]) && TrimLeft(s) == s[i..]
    ensures TrimLeft(s) != "" ==> TrimLeft(s)[0] != '"'
  {
    i := 0;
    if s != "" && s[0] == '"' {
      i := LeftTrimmed(s[1..]);
      assert s[..i+1] == [s[0]] + s[1..][..i];
      i := i + 1;
    }
  }

  lemma {:induction false} RightTrimmed(s: string) returns (j: nat)
    ensures j <= |s| && AllQuotes(s[j..]) && TrimRight(s) == s[..j]
    ensures TrimRight(s) != "" ==> TrimRight(s)[|TrimRight(s)|-1] != '"'
  {
    j := |s|;
    if EndsWithQuote(s) {
      j := RightTrimmed(s[..|s|-1]);
      assert s[j..] == s[..|s|-1][j..] + [s[|s|-1]];
    }
  }

  /** s without the quotes at its two ends. */
  ghost predicate IsCore(s: string, core: string) {
    exists i, j :: 0 <= i <= j <= |s| && CoreAt(s, core, i, j)
  }

  predicate CoreAt(s: string, core: string, i: nat, j: nat)
    requires i <= j <= |s|
  {
    && core == s[i..j] && AllQuotes(s[..i]) && AllQuotes(s[j..])
    && (core != "" ==> core[0] != '"' && core[|core|-1] != '"')
  }

  /** A text with a quote at each end loses all the quotes at both ends; any other text is left alone. */
  lemma TrimQuotesMeaning(s: string)
    ensures s != "" && s[0] == '"' && s[|s|-1] == '"' ==> IsCore(s, TrimQuotes(s))
    ensures !(s != "" && s[0] == '"' && s[|s|-1] == '"') ==> TrimQuotes(s) == s
  {
    if s != "" && s[0] == '"' && EndsWithQuote(s) {
      var i := LeftTrimmed(s);
      var k := RightTrimmed(s[i..]);
      var j := i + k;
      assert s[i..][..k] == s[i..j] && s[i..][k..] == s[j..];
      if k > 0 { assert TrimRight(s[i..])[0] == s[i..][0]; }
      assert CoreAt(s, TrimQuotes(s), i, j);
    }
  }

  function Quotes(s: string): nat {
    if s == "" then 0 else (if s[0] == '"' then 1 else 0) + Quotes(s[1..])
  }

  predicate Even(n: nat) { n % 2 == 0 }

  lemma {:induction false} QuotesConcat(a: string, b: string)
    ensures Quotes(a + b) == Quotes(a) + Quotes(b)
  {
    if a == "" {
      assert a + b == b;
    } else {
      assert (a + b)[1..] == a[1..] + b;
      QuotesConcat(a[1..], b);
    }
  }

  // ---------- Cutting at the commas that are outside quotes ----------

  function Toggle(quoted: bool, c: char): bool { if c == '"' then !quoted else quoted }

  function Attach(prefix: string, fields: seq<string>): seq<string>
    requires fields != []
  {
    [prefix + fields[0]] + fields[1..]
  }

  function RawFields(s: string, quoted: bool): (fields: seq<string>)
    ensures fields != []
  {
    if s == "" then [""]
    else if s[0] == ',' && !quoted then [""] + RawFields(s[1..], false)
    else Attach([s[0]], RawFields(s[1..], Toggle(quoted, s[0])))
  }

  function TrimAll(fields: seq<string>): seq<string> {
    if fields == [] then [] else [TrimQuotes(fields[0])] + TrimAll(fields[1..])
  }

  /** A lone field that trims to nothing is an empty list. */
  function Finish(fields: seq<string>): seq<string> {
    if |fields| == 1 && TrimQuotes(fields[0]) == "" then [] else TrimAll(fields)
  }

  function ParseString(s: string): Option<seq<string>> {
    if Even(Quotes(s)) then Some(Finish(RawFields(s, false))) else None
  }

  lemma {:induction false} TrimAllConcat(a: seq<string>, b: seq<string>)
    ensures TrimAll(a + b) == TrimAll(a) + TrimAll(b)
    ensures |TrimAll(a)| == |a|
  {
    if a == [] {
      assert a + b == b;
    } else {
      assert (a + b)[1..] == a[1..] + b;
      TrimAllConcat(a[1..], b);
    }
  }

  /** strvBuilder: a field being written, and the fields already finished. */
  class StrvBuilder {
    var strBuilder: string
    var strv: seq<string>

    constructor ()
      ensures strBuilder == "" && strv == []
    {
      strBuilder, strv := "", [];
    }

    method Next()
      modifies this
      ensures strBuilder == "" && strv == old(strv) + [TrimQuotes(old(strBuilder))]
    {
      strv := strv + [TrimQuotes(strBuilder)];
      strBuilder := "";
    }

    method WriteRune(c: char)
      modifies this`strBuilder
      ensures strBuilder == old(strBuilder) + [c]
    {
      strBuilder := strBuilder + [c];
    }

    method End() returns (r: seq<string>)
      modifies this`strv
      ensures r == strv
      ensures strv == if old(strv) == [] && TrimQuotes(strBuilder) == "" then []
                      else old(strv) + [TrimQuotes(strBuilder)]
    {
      var lastStr := TrimQuotes(strBuilder);
      if |strv| != 0 || |lastStr| != 0 {
        strv := strv + [lastStr];
      }
      r := strv;
    }
  }

  method Parse(str: string) returns (r: Option<seq<string>>)
    ensures r == ParseString(str)
  {
    var withinQuotes := false;
    var builder := new StrvBuilder();
    ghost var done: seq<string> := [];
    AttachNothing(RawFields(str, false));
    assert str[0..] == str;
    for i := 0 to |str|
      invariant fresh(builder)
      invariant builder.strv == TrimAll(done)
      invariant Progress(str, done, builder.strBuilder, str[i..], withinQuotes)
    {
      var c := str[i];
      assert str[i..][1..] == str[i+1..];
      OneRune(str, done, builder.strBuilder, str[i..], withinQuotes);
      if withinQuotes {
        if c == '"' { withinQuotes := false; }
        builder.WriteRune(c);
        continue;
      }
      match c
      case ',' =>
        FinishSnoc(done, builder.strBuilder);
        done := done + [builder.strBuilder];
        builder.Next();
      case _ =>
        if c == '"' { withinQuotes := true; }
        builder.WriteRune(c);
    }
    NoMoreRunes(str, done, builder.strBuilder, withinQuotes);
    if withinQuotes { return None; }
    FinishSnoc(done, builder.strBuilder);
    var strv := builder.End();
    r := Some(strv);
  }

  /** rest is still to be read, after the finished fields and a field begun with buffer. */
  ghost predicate Progress(str: string, done: seq<string>, buffer: string, rest: string, quoted: bool) {
    && RawFields(str, false) == done + Attach(buffer, RawFields(rest, quoted))
    && (Even(Quotes(str)) <==> Even(Open(quoted) + Quotes(rest)))
  }

  lemma OneRune(str: string, done: seq<string>, buffer: string, rest: string, quoted: bool)
    requires rest != "" && Progress(str, done, buffer, rest, quoted)
    ensures if rest[0] == ',' && !quoted then Progress(str, done + [buffer], "", rest[1..], false)
            else Progress(str, done, buffer + [rest[0]], rest[1..], Toggle(quoted, rest[0]))
  {
    var fields := RawFields(rest[1..], Toggle(quoted, rest[0]));
    if rest[0] == ',' && !quoted {
      AttachNothing(fields);
      assert buffer + "" == buffer;
      assert ([""] + fields)[1..] == fields;
      assert done + ([buffer] + fields) == (done + [buffer]) + fields;
    } else {
      assert buffer + ([rest[0]] + fields[0]) == (buffer + [rest[0]]) + fields[0];
    }
  }

  lemma NoMoreRunes(str: string, done: seq<string>, buffer: string, quoted: bool)
    requires Progress(str, done, buffer, "", quoted)
    ensures ParseString(str) == if quoted then None else Some(Finish(done + [buffer]))
  {
    assert RawFields("", quoted) == [""];
    assert buffer + "" == buffer;
    assert Attach(buffer, [""]) == [buffer];
  }

  lemma FinishSnoc(done: seq<string>, last: string)
    ensures TrimAll(done + [last]) == TrimAll(done) + [TrimQuotes(last)]
    ensures Finish(done + [last])
         == if TrimAll(done) == [] && TrimQuotes(last) == "" then [] else TrimAll(done) + [TrimQuotes(last)]
  {
    TrimAllConcat(done, [last]);
    assert [last][1..] == [];
  }

  function Open(quoted: bool): nat { if quoted then 1 else 0 }

  lemma AttachNothing(fields: seq<string>)
    requires fields != []
    ensures Attach("", fields) == fields
  {
    assert "" + fields[0] == fields[0];
  }

  // ---------- What the fields are ----------

  /** f, read from the given quote state, has no comma outside quotes and ends outside quotes. */
  predicate Clean(f: string, quoted: bool) {
    if f == "" then !quoted
    else !(f[0] == ',' && !quoted) && Clean(f[1..], Toggle(quoted, f[0]))
  }

  /** A comma with an even number of quotes before it. */
  predicate BareComma(f: string, quoted: bool, i: nat)
    requires i < |f|
  {
    f[i] == ',' && Even(Open(quoted) + Quotes(f[..i]))
  }

  lemma BareCommaShift(f: string, quoted: bool, i: nat)
    requires i + 1 < |f|
    ensures BareComma(f, quoted, i + 1) <==> BareComma(f[1..], Toggle(quoted, f[0]), i)
  {
    assert f[..i+1][1..] == f[1..][..i];
  }

  /** The same without scanning: balanced quotes, and no comma that an even number of quotes precedes. */
  lemma {:induction false} CleanMeaning(f: string, quoted: bool)
    ensures Clean(f, quoted)
       <==> Even(Open(quoted) + Quotes(f)) && forall i :: 0 <= i < |f| ==> !BareComma(f, quoted, i)
  {
    if f != "" {
      var g, q := f[1..], Toggle(quoted, f[0]);
      CleanMeaning(g, q);
      assert BareComma(f, quoted, 0) <==> f[0] == ',' && !quoted;
      if forall i :: 0 <= i < |f| ==> !BareComma(f, quoted, i) {
        forall i | 0 <= i < |g| ensures !BareComma(g, q, i) { BareCommaShift(f, quoted, i); }
      }
      if Clean(f, quoted) {
        forall i | 0 <= i < |f| ensures !BareComma(f, quoted, i) {
          if i > 0 { BareCommaShift(f, quoted, i - 1); }
        }
      }
    }
  }

  ghost predicate AllClean(fields: seq<string>) { forall i :: 0 <= i < |fields| ==> Clean(fields[i], false) }

  lemma {:induction false} FieldsJoin(s: string, quoted: bool)
    ensures Join(RawFields(s, quoted), ',') == s
  {
    if s != "" {
      var q := Toggle(quoted, s[0]);
      var fields := RawFields(s[1..], q);
      FieldsJoin(s[1..], q);
      assert s == [s[0]] + s[1..];
      if s[0] == ',' && !quoted {
        assert ([""] + fields)[1..] == fields;
      } else {
        assert Attach([s[0]], fields)[1..] == fields[1..];
      }
    }
  }

  lemma {:induction false} FieldsClean(s: string, quoted: bool)
    requires Even(Open(quoted) + Quotes(s))
    ensures var fields := RawFields(s, quoted);
            Clean(fields[0], quoted) && forall i :: 1 <= i < |fields| ==> Clean(fields[i], false)
  {
    if s != "" {
      var q := Toggle(quoted, s[0]);
      FieldsClean(s[1..], q);
      var fields := RawFields(s[1..], q);
      if !(s[0] == ',' && !quoted) {
        assert ([s[0]] + fields[0])[1..] == fields[0];
      }
    }
  }

  /** A clean prefix followed by a comma is a field of its own. */
  lemma {:induction false} CleanPrefix(f: string, rest: string, quoted: bool)
    requires Clean(f, quoted)
    ensures RawFields(f + "," + rest, quoted) == [f] + RawFields(rest, false)
    ensures RawFields(f, quoted) == [f]
  {
    var s := f + "," + rest;
    if f == "" {
      assert s[1..] == rest;
    } else {
      var q := Toggle(quoted, f[0]);
      assert s[1..] == f[1..] + "," + rest;
      CleanPrefix(f[1..], rest, q);
      assert f == [f[0]] + f[1..];
      assert Attach([f[0]], [f[1..]] + RawFields(rest, false)) == [f] + RawFields(rest, false);
    }
  }

  /** Cutting at unquoted commas is the only way to write a text as clean fields. */
  lemma {:induction false} FieldsUnique(fields: seq<string>)
    requires fields != [] && AllClean(fields)
    ensures RawFields(Join(fields, ','), false) == fields
    ensures Even(Quotes(Join(fields, ',')))
  {
    assert Clean(fields[0], false);
    CleanMeaning(fields[0], false);
    if |fields| == 1 {
      CleanPrefix(fields[0], "", false);
    } else {
      var rest := Join(fields[1..], ',');
      FieldsUnique(fields[1..]);
      CleanPrefix(fields[0], rest, false);
      assert fields[0] + ([','] + rest) == fields[0] + "," + rest;
      QuotesConcat(fields[0] + ",", rest);
      QuotesConcat(fields[0], ",");
    }
  }

  /** parseString succeeds exactly on balanced quotes; then its fields are the one way to write the input as
      clean fields joined by commas, and the result is those fields with their outer quotes trimmed. */
  lemma ParseStringSplits(s: string)
    ensures ParseString(s).Some? <==> Even(Quotes(s))
    ensures ParseString(s).Some? <==> exists fields :: IsSplit(fields, s)
    ensures forall fields :: IsSplit(fields, s) ==> ParseString(s) == Some(Finish(fields))
  {
    if Even(Quotes(s)) {
      FieldsJoin(s, false);
      FieldsClean(s, false);
      assert IsSplit(RawFields(s, false), s);
    }
    forall fields | IsSplit(fields, s) ensures ParseString(s) == Some(Finish(fields)) { FieldsUnique(fields); }
  }

  ghost predicate IsSplit(fields: seq<string>, s: string) {
    fields != [] && AllClean(fields) && Join(fields, ',') == s
  }

  // ---------- Quoting ----------

  function Quote(f: string): string { "\"" + f + "\"" }

  function QuoteAll(fields: seq<string>): seq<string> {
    if fields == [] then [] else [Quote(fields[0])] + QuoteAll(fields[1..])
  }

  lemma {:induction false} NoQuotes(f: string)
    requires '"' !in f
    ensures Quotes(f) == 0
    ensures Clean(f + "\"", true)
    ensures TrimLeft(f + "\"") == (if f == "" then "" else f + "\"") && TrimRight(f) == f && TrimQuotes(f) == f
  {
    if f != "" {
      NoQuotes(f[1..]);
      assert (f + "\"")[1..] == f[1..] + "\"";
    } else {
      assert "" + "\"" == "\"";
      assert "\""[1..] == "";
    }
  }

  lemma QuoteRoundTrip(f: string)
    requires '"' !in f
    ensures Clean(Quote(f), false) && TrimQuotes(Quote(f)) == f
  {
    NoQuotes(f);
    assert Quote(f)[1..] == f + "\"";
    assert (f + "\"")[..|f|] == f;
  }

  lemma {:induction false} QuoteAllClean(fields: seq<string>)
    requires forall i :: 0 <= i < |fields| ==> '"' !in fields[i]
    ensures |QuoteAll(fields)| == |fields| && AllClean(QuoteAll(fields)) && TrimAll(QuoteAll(fields)) == fields
  {
    if fields != [] {
      QuoteRoundTrip(fields[0]);
      QuoteAllClean(fields[1..]);
    }
  }

  /** Quote every field and join: the list comes back, except that a lone empty field is lost. */
  lemma QuotedListRoundTrip(fields: seq<string>)
    requires forall i :: 0 <= i < |fields| ==> '"' !in fields[i]
    ensures ParseString(Join(QuoteAll(fields), ',')) == Some(if fields == [""] then [] else fields)
  {
    QuoteAllClean(fields);
    if fields == [] {
      assert RawFields("", false) == [""];
    } else {
      FieldsUnique(QuoteAll(fields));
      if |fields| == 1 {
        assert fields == [fields[0]];
        assert QuoteAll(fields) == [Quote(fields[0])];
        QuoteRoundTrip(fields[0]);
      }
    }
  }

  lemma {:induction false} PlainFields(s: string)
    requires '"' !in s
    ensures RawFields(s, false) == Split(s, ',')
  {
    if s != "" { PlainFields(s[1..]); }
  }

  lemma {:induction false} PlainTrim(fields: seq<string>)
    requires forall i :: 0 <= i < |fields| ==> '"' !in fields[i]
    ensures TrimAll(fields) == fields
  {
    if fields != [] {
      NoQuotes(fields[0]);
      PlainTrim(fields[1..]);
    }
  }

  lemma {:induction false} SplitKeepsOut(s: string, c: char, d: char)
    requires d !in s
    ensures forall i :: 0 <= i < |Split(s, c)| ==> d !in Split(s, c)[i]
  {
    if s != "" { SplitKeepsOut(s[1..], c, d); }
  }

  /** Without quotes, the syntax is plain splitting at commas; only the empty text is special. */
  lemma UnquotedIsSplit(s: string)
    requires '"' !in s
    ensures ParseString(s) == Some(if s == "" then [] else Split(s, ','))
  {
    NoQuotes(s);
    PlainFields(s);
    SplitKeepsOut(s, ',', '"');
    PlainTrim(Split(s, ','));
    if s != "" && |Split(s, ',')| == 1 {
      SplitParts(s, ',');
      NoQuotes(s);
    }
  }

  // ---------- The accumulating flag value ----------

  datatype FlagValue = FlagValue(value: seq<string>, changed: bool)

  function SetValue(v: FlagValue, text: string): FlagValue {
    match ParseString(text)
    case None => v
    case Some(parsed) => FlagValue(if v.changed then v.value + parsed else parsed, true)
  }

  class StringSliceValue {
    var value: seq<string>
    var changed: bool

    function View(): FlagValue
      reads this
    {
      FlagValue(value, changed)
    }

    constructor ()
      ensures View() == FlagValue([], false)
    {
      value, changed := [], false;
    }

    method Set(val: string) returns (ok: bool)
      modifies this
      ensures ok <==> ParseString(val).Some?
      ensures View() == SetValue(old(View()), val)
    {
      var v := Parse(val);
      if v.None? { return false; }
      if !changed {
        value := v.value;
      } else {
        value := value + v.value;
      }
      changed := true;
      return true;
    }

    method Append(val: string)
      modifies this`value
      ensures View() == old(View()).(value := old(value) + [val])
    {
      value := value + [val];
    }

    method Replace(val: seq<string>)
      modifies this`value
      ensures View() == old(View()).(value := val)
    {
      value := val;
    }

    method GetSlice() returns (r: seq<string>)
      ensures r == View().value
    {
      r := value;
    }
  }

  function SetAll(v: FlagValue, texts: seq<string>): FlagValue
    decreases |texts|
  {
    if texts == [] then v else SetAll(SetValue(v, texts[0]), texts[1..])
  }

  /** The lists read by the texts that are accepted, one after the other. */
  function AcceptedValues(texts: seq<string>): seq<string> {
    if texts == [] then [] else ParseString(texts[0]).GetOr([]) + AcceptedValues(texts[1..])
  }

  predicate AnyAccepted(texts: seq<string>) {
    texts != [] && (ParseString(texts[0]).Some? || AnyAccepted(texts[1..]))
  }

  /** What a later Set appends to: values from earlier Sets stay, a default does not. */
  function Kept(v: FlagValue): seq<string> { if v.changed then v.value else [] }

  lemma SetAccepted(v: FlagValue, text: string)
    requires ParseString(text).Some?
    ensures SetValue(v, text) == FlagValue(Kept(v) + ParseString(text).value, true)
  {
    assert [] + ParseString(text).value == ParseString(text).value;
  }

  /** After any run of Set calls, the value is what the accepted texts list, in order, after what was kept;
      a default survives only if nothing was accepted. */
  lemma {:induction false} SetRun(v: FlagValue, texts: seq<string>)
    ensures SetAll(v, texts) == if AnyAccepted(texts) then FlagValue(Kept(v) + AcceptedValues(texts), true) else v
    decreases |texts|
  {
    if texts != [] {
      var head, rest := texts[0], texts[1..];
      var w := SetValue(v, head);
      SetRun(w, rest);
      match ParseString(head)
      case None =>
        assert AcceptedValues(texts) == AcceptedValues(rest);
      case Some(parsed) =>
        SetAccepted(v, head);
        if !AnyAccepted(rest) { NoneAccepted(rest); }
        Regrouped(Kept(v), parsed, AcceptedValues(rest));
    }
  }

  lemma Regrouped(k: seq<string>, a: seq<string>, b: seq<string>)
    ensures (k + a) + b == k + (a + b)
    ensures a + [] == a
  {
  }

  lemma {:induction false} NoneAccepted(texts: seq<string>)
    requires !AnyAccepted(texts)
    ensures AcceptedValues(texts) == []
  {
    if texts != [] {
      NoneAccepted(texts[1..]);
    }
  }

  lemma AttachConcat(prefix: string, fields: seq<string>, more: seq<string>)
    requires fields != []
    ensures Attach(prefix, fields + more) == Attach(prefix, fields) + more
  {
    assert (fields + more)[1..] == fields[1..] + more;
  }

  lemma {:induction false} FieldsConcat(a: string, b: string, quoted: bool)
    requires Even(Open(quoted) + Quotes(a))
    ensures RawFields(a + "," + b, quoted) == RawFields(a, quoted) + RawFields(b, false)
  {
    var s := a + "," + b;
    if a == "" {
      assert s[1..] == b;
    } else {
      var q := Toggle(quoted, a[0]);
      assert s[1..] == a[1..] + "," + b;
      FieldsConcat(a[1..], b, q);
      var fields, more := RawFields(a[1..], q), RawFields(b, false);
      assert [""] + (fields + more) == ([""] + fields) + more;
      AttachConcat([a[0]], fields, more);
    }
  }

  lemma JoinedQuotes(a: string, b: string)
    ensures Quotes(a + "," + b) == Quotes(a) + Quotes(b)
  {
    QuotesConcat(a + ",", b);
    QuotesConcat(a, ",");
  }

  lemma FinishTwo(a: seq<string>, b: seq<string>)
    requires a != [] && b != []
    ensures Finish(a + b) == TrimAll(a) + TrimAll(b)
  {
    TrimAllConcat(a, b);
  }

  lemma JoinedFields(a: string, b: string)
    requires Even(Quotes(a)) && Even(Quotes(b))
    ensures RawFields(a + "," + b, false) == RawFields(a, false) + RawFields(b, false)
    ensures Even(Quotes(a + "," + b))
  {
    JoinedQuotes(a, b);
    EvenSum(Quotes(a), Quotes(b));
    FieldsConcat(a, b, false);
  }

  lemma ParseJoined(a: string, b: string)
    requires Even(Quotes(a)) && Even(Quotes(b))
    ensures ParseString(a + "," + b) == Some(TrimAll(RawFields(a, false)) + TrimAll(RawFields(b, false)))
  {
    JoinedFields(a, b);
    FinishTwo(RawFields(a, false), RawFields(b, false));
  }

  lemma EvenSum(m: nat, n: nat)
    ensures Even(m + n) <==> (Even(m) <==> Even(n))
  {
  }

  lemma TwoSets(a: string, b: string)
    ensures var r := SetAll(FlagValue([], false), [a, b]);
            && (ParseString(a).Some? && ParseString(b).Some? ==> r.value == ParseString(a).value + ParseString(b).value)
            && r.changed == (ParseString(a).Some? || ParseString(b).Some?)
            && (ParseString(a).None? ==> r.value == ParseString(b).GetOr([]))
            && (ParseString(b).None? ==> r.value == ParseString(a).GetOr([]))
  {
    var v := FlagValue([], false);
    assert [a, b][1..] == [b] && [b][1..] == [];
    assert SetAll(v, [a, b]) == SetAll(SetValue(v, a), [b]) == SetAll(SetValue(SetValue(v, a), b), []);
  }

  lemma FinishMeaning(fields: seq<string>)
    requires fields != []
    ensures Finish(fields) == if TrimAll(fields) == [""] then [] else TrimAll(fields)
    ensures TrimAll(fields) != []
  {
    TrimAllConcat(fields, []);
    if |fields| == 1 { assert TrimAll(fields[1..]) == []; }
  }

  lemma SetTwiceBalanced(a: string, b: string)
    requires Even(Quotes(a)) && Even(Quotes(b))
    ensures SetAll(FlagValue([], false), [a, b]) == SetValue(FlagValue([], false), a + "," + b)
       <==> ParseString(a).GetOr([]) != [] && ParseString(b).GetOr([]) != []
  {
    TwoSets(a, b);
    ParseJoined(a, b);
    FinishMeaning(RawFields(a, false));
    FinishMeaning(RawFields(b, false));
  }

  /** Two Set calls on a fresh value are one Set of the comma-joined texts exactly when both list something. */
  lemma SetTwice(a: string, b: string)
    ensures SetAll(FlagValue([], false), [a, b]) == SetValue(FlagValue([], false), a + "," + b)
       <==> ParseString(a).GetOr([]) != [] && ParseString(b).GetOr([]) != []
  {
    if Even(Quotes(a)) && Even(Quotes(b)) {
      SetTwiceBalanced(a, b);
    } else {
      TwoSets(a, b);
      JoinedQuotes(a, b);
      EvenSum(Quotes(a), Quotes(b));
    }
  }
}
