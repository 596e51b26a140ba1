/** Text as sequences of characters: splitting, joining, decimal numbers and hardware addresses. */
module Text {

  datatype Option<+T> = None | Some(value: T) {
    function GetOr(default: T): T { if None? then default else value }
  }

  const MAX_INT32 := 0x7FFF_FFFF
  const MAX_UINT32 := 0xFFFF_FFFF
  const MAX_INT64 := 0x7FFF_FFFF_FFFF_FFFF
  const TWO_TO_THE_64 := 0x1_0000_0000_0000_0000

  type Byte = n: int | 0 <= n < 256
  type Uint32 = n: int | 0 <= n <= 0xFFFF_FFFF
  type Uint64 = n: int | 0 <= n < 0x1_0000_0000_0000_0000
  type Int64 = n: int | -0x8000_0000_0000_0000 <= n <= 0x7FFF_FFFF_FFFF_FFFF

  // ---------- Splitting and joining on one character ----------

  /** strings.Split with a one-character separator: there is always at least one part. */
  function Split(s: string, c: char): (parts: seq<string>)
    ensures |parts| >= 1
  {
    if s == "" then [""] else Prepend(s[0], c, Split(s[1..], c))
  }

  /** One more character before the parts of a text: a new part, or the first part is longer. */
  function Prepend(first: char, c: char, parts: seq<string>): (r: seq<string>)
    requires |parts| >= 1
    ensures |r| >= 1
  {
    if first == c then [""] + parts else [[first] + parts[0]] + parts[1..]
  }

  lemma PrependConcat(first: char, c: char, parts: seq<string>, more: seq<string>)
    requires |parts| >= 1
    ensures Prepend(first, c, parts + more) == Prepend(first, c, parts) + more
  {
    assert (parts + more)[1..] == parts[1..] + more;
  }

  function Join(parts: seq<string>, c: char): string {
    if parts == [] then ""
    else if |parts| == 1 then parts[0]
    else parts[0] + ([c] + Join(parts[1..], c))
  }

  lemma PrependJoins(first: char, c: char, parts: seq<string>)
    requires |parts| >= 1
    ensures Join(Prepend(first, c, parts), c) == [first] + Join(parts, c)
  {
    var r := Prepend(first, c, parts);
    if first == c {
      assert r[1..] == parts;
    } else {
      assert r[1..] == parts[1..];
      assert ([first] + parts[0]) + ([c] + Join(parts[1..], c)) == [first] + (parts[0] + ([c] + Join(parts[1..], c)));
    }
  }

  /** Splitting loses nothing, and leaves no separator inside a part. */
  lemma {:induction false} SplitParts(s: string, c: char)
    ensures Join(Split(s, c), c) == s
    ensures forall i :: 0 <= i < |Split(s, c)| ==> c !in Split(s, c)[i]
  {
    if s != "" {
      SplitParts(s[1..], c);
      PrependJoins(s[0], c, Split(s[1..], c));
      assert s == [s[0]] + s[1..];
    }
  }

  lemma {:induction false} SplitPlain(s: string, c: char)
    requires c !in s
    ensures Split(s, c) == [s]
  {
    if s != "" {
      SplitPlain(s[1..], c);
      assert s == [s[0]] + s[1..];
    }
  }

  lemma {:induction false} SplitConcat(a: string, b: string, c: char)
    ensures Split(a + [c] + b, c) == Split(a, c) + Split(b, c)
  {
    if a == "" {
      assert (a + [c] + b)[1..] == b;
    } else {
      SplitConcat(a[1..], b, c);
      assert (a + [c] + b)[1..] == a[1..] + [c] + b;
      PrependConcat(a[0], c, Split(a[1..], c), Split(b, c));
    }
  }

  lemma {:induction false} SplitJoin(parts: seq<string>, c: char)
    requires parts != []
    requires forall i :: 0 <= i < |parts| ==> c !in parts[i]
    ensures Split(Join(parts, c), c) == parts
  {
    SplitPlain(parts[0], c);
    if |parts| > 1 {
      SplitJoin(parts[1..], c);
      SplitConcat(parts[0], Join(parts[1..], c), c);
      assert parts[0] + ([c] + Join(parts[1..], c)) == parts[0] + [c] + Join(parts[1..], c);
    }
  }

  /** The position of the first c in s, or |s|. */
  function IndexOf(s: string, c: char): (i: nat)
    ensures i <= |s|
    ensures c !in s[..i]
    ensures i < |s| ==> s[i] == c
  {
    if s == "" || s[0] == c then 0
    else
      assert forall k :: 1 <= k <= |s| ==> s[..k] == [s[0]] + s[1..][..k-1];
      1 + IndexOf(s[1..], c)
  }

  lemma {:induction false} IndexOfAt(s: string, c: char, k: nat)
    requires k <= |s| && c !in s[..k]
    requires k < |s| ==> s[k] == c
    ensures IndexOf(s, c) == k
  {
    if k > 0 {
      assert s[0] in s[..k];
      assert forall x :: x in s[1..][..k-1] ==> x in s[..k];
      IndexOfAt(s[1..], c, k - 1);
    }
  }

  // ---------- Decimal numbers (strconv, and %d in fmt) ----------

  function Digit(d: nat): char
    requires d < 10
  {
    "0123456789"[d]
  }

  predicate IsDigit(c: char) { '0' <= c <= '9' }

  function DigitValue(c: char): nat
    requires IsDigit(c)
  {
    c as int - '0' as int
  }

  predicate AllDigits(s: string) { forall i :: 0 <= i < |s| ==> IsDigit(s[i]) }

  function Dec(n: nat): string {
    if n < 10 then [Digit(n)] else Dec(n / 10) + [Digit(n % 10)]
  }

  function DecValue(s: string): nat
    requires AllDigits(s)
  {
    if s == "" then 0 else DecValue(s[..|s|-1]) * 10 + DigitValue(s[|s|-1])
  }

  /** strconv.ParseUint in base 10: digits only, no sign, at most max. */
  function ParseUint(s: string, max: nat): Option<nat> {
    if s != "" && AllDigits(s) && DecValue(s) <= max then Some(DecValue(s)) else None
  }

  /** strconv.ParseInt in base 10: an optional sign, then digits, with -max-1 <= result <= max. */
  function ParseInt(s: string, max: nat): Option<int> {
    if s != "" && s[0] == '-' then
      match ParseUint(s[1..], max + 1)
      case None => None
      case Some(n) => Some(0 - n)
    else
      match ParseUint(if s != "" && s[0] == '+' then s[1..] else s, max)
      case None => None
      case Some(n) => Some(n)
  }

  /** Printing then reading a number gives it back; the print is digits only and never empty. */
  lemma {:induction false} DecRoundTrip(n: nat)
    ensures Dec(n) != "" && AllDigits(Dec(n)) && DecValue(Dec(n)) == n
    ensures forall c :: c in Dec(n) ==> IsDigit(c)
  {
    if n < 10 {
      assert DecValue([Digit(n)]) == DecValue("") * 10 + n by {
        assert [Digit(n)][..0] == "";
        DigitRoundTrip(n);
      }
      DigitRoundTrip(n);
    } else {
      DecRoundTrip(n / 10);
      DigitRoundTrip(n % 10);
      assert Dec(n)[..|Dec(n)|-1] == Dec(n / 10);
    }
  }

  lemma DigitRoundTrip(d: nat)
    requires d < 10
    ensures IsDigit(Digit(d)) && DigitValue(Digit(d)) == d
  {
  }

  lemma ParsePrintedNumber(n: nat, max: nat)
    ensures ParseUint(Dec(n), max) == if n <= max then Some(n) else None
    ensures ParseInt(Dec(n), max) == if n <= max then Some(n) else None
  {
    DecRoundTrip(n);
    assert Dec(n)[0] in Dec(n);
  }

  // ---------- Hardware addresses (net.ParseMAC, net.HardwareAddr.String) ----------

  function HexDigit(d: nat): char
    requires d < 16
  {
    "0123456789abcdef"[d]
  }

  function HexValue(c: char): (v: Option<nat>)
    ensures v.Some? ==> v.value < 16
  {
    if '0' <= c <= '9' then Some(c as int - '0' as int)
    else if 'a' <= c <= 'f' then Some(c as int - 'a' as int + 10)
    else if 'A' <= c <= 'F' then Some(c as int - 'A' as int + 10)
    else None
  }

  lemma HexRoundTrip(d: nat)
    requires d < 16
    ensures HexValue(HexDigit(d)) == Some(d) && HexDigit(d) != ',' && HexDigit(d) != ':'
  {
  }

  function HexByte(hi: char, lo: char): Option<Byte> {
    match (HexValue(hi), HexValue(lo))
    case (Some(h), Some(l)) => Some(16 * h + l)
    case _ => None
  }

  function MacString(mac: seq<Byte>): string {
    if mac == [] then ""
    else
      var head := [HexDigit(mac[0] / 16), HexDigit(mac[0] % 16)];
      if |mac| == 1 then head else head + ":" + MacString(mac[1..])
  }

  /** Two hex digits, then (if anything follows) the separator and more octets. */
  function Octets(s: string, sep: char): Option<seq<Byte>> {
    if |s| < 2 then None
    else
      match HexByte(s[0], s[1])
      case None => None
      case Some(b) =>
        if |s| == 2 then Some([b])
        else if s[2] != sep then None
        else
          match Octets(s[3..], sep)
          case None => None
          case Some(rest) => Some([b] + rest)
  }

  /** Four hex digits, then (if anything follows) the separator and more pairs of octets. */
  function DottedOctets(s: string, sep: char): Option<seq<Byte>> {
    if |s| < 4 then None
    else
      match (HexByte(s[0], s[1]), HexByte(s[2], s[3]))
      case (Some(b0), Some(b1)) =>
        if |s| == 4 then Some([b0, b1])
        else if s[4] != sep then None
        else (
          match DottedOctets(s[5..], sep)
          case None => None
          case Some(rest) => Some([b0, b1] + rest))
      case _ => None
  }

  predicate IsMacLength(n: int) { n == 6 || n == 8 || n == 20 }

  function ParseMac(s: string): Option<seq<Byte>> {
    if |s| < 14 then None
    else if s[2] == ':' || s[2] == '-' then
      if (|s| + 1) % 3 == 0 && IsMacLength((|s| + 1) / 3) then Octets(s, s[2]) else None
    else if s[4] == '.' then
      if (|s| + 1) % 5 == 0 && IsMacLength(2 * (|s| + 1) / 5) then DottedOctets(s, s[4]) else None
    else None
  }

  lemma {:induction false} OctetsLength(s: string, sep: char)
    requires Octets(s, sep).Some?
    ensures 3 * |Octets(s, sep).value| == |s| + 1
  {
    if |s| > 2 { OctetsLength(s[3..], sep); }
  }

  lemma {:induction false} DottedOctetsLength(s: string, sep: char)
    requires DottedOctets(s, sep).Some?
    ensures 5 * |DottedOctets(s, sep).value| == 2 * (|s| + 1)
  {
    if |s| > 4 { DottedOctetsLength(s[5..], sep); }
  }

  /** Whatever the notation, an accepted address has 6, 8 or 20 bytes. */
  lemma ParsedMacLength(s: string)
    requires ParseMac(s).Some?
    ensures IsMacLength(|ParseMac(s).value|)
  {
    if s[2] == ':' || s[2] == '-' { OctetsLength(s, s[2]); } else { DottedOctetsLength(s, s[4]); }
  }

  lemma {:induction false} MacStringShape(mac: seq<Byte>)
    ensures mac != [] ==> |MacString(mac)| == 3 * |mac| - 1
    ensures |mac| >= 2 ==> MacString(mac)[2] == ':'
    ensures ',' !in MacString(mac)
  {
    if mac != [] {
      HexRoundTrip(mac[0] / 16);
      HexRoundTrip(mac[0] % 16);
      MacStringShape(mac[1..]);
    }
  }

  lemma HexByteRoundTrip(b: Byte)
    ensures HexByte(HexDigit(b / 16), HexDigit(b % 16)) == Some(b)
  {
    HexRoundTrip(b / 16);
    HexRoundTrip(b % 16);
  }

  lemma {:induction false} MacStringOctets(mac: seq<Byte>)
    requires mac != []
    ensures Octets(MacString(mac), ':') == Some(mac)
  {
    var s := MacString(mac);
    HexByteRoundTrip(mac[0]);
    MacStringShape(mac);
    if |mac| == 1 {
      assert mac == [mac[0]];
    } else {
      MacStringOctets(mac[1..]);
      assert s[3..] == MacString(mac[1..]);
      assert mac == [mac[0]] + mac[1..];
    }
  }

  /** A printed address is read back exactly when it has 6, 8 or 20 bytes. */
  lemma MacRoundTrip(mac: seq<Byte>)
    ensures ParseMac(MacString(mac)) == if IsMacLength(|mac|) then Some(mac) else None
  {
    MacStringShape(mac);
    if mac != [] { MacStringOctets(mac); }
  }
}
