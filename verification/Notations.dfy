/** Exactly which texts the number and address readers accept, stated on the characters of the text. */
module Notations {
  import opened Text

  // ---------- Decimal numbers ----------

  function PowerOfTen(n: nat): nat { if n == 0 then 1 else 10 * PowerOfTen(n - 1) }

  /** The value of a run of digits: one digit is its distance from '0', and earlier digits weigh tens. */
  lemma {:induction false} DecValueConcat(a: string, b: string)
    requires AllDigits(a) && AllDigits(b)
    ensures AllDigits(a + b) && DecValue(a + b) == DecValue(a) * PowerOfTen(|b|) + DecValue(b)
  {
    if b == "" {
      assert a + b == a;
    } else {
      var c, last := b[..|b|-1], b[|b|-1];
      assert (a + b)[..|a + b|-1] == a + c;
      DecValueConcat(a, c);
      Weigh(DecValue(a), PowerOfTen(|c|), DecValue(c));
    }
  }

  lemma Weigh(a: nat, p: nat, c: nat)
    ensures (a * p + c) * 10 == a * (10 * p) + c * 10
  {
  }

  lemma OneDigit(c: char)
    requires '0' <= c <= '9'
    ensures AllDigits([c]) && DecValue([c]) == c as int - 48
  {
    assert [c][..0] == "";
  }

  /** A printed number has no sign, no blank and no superfluous zero. */
  lemma {:induction false} PrintedNumberIsShort(n: nat)
    ensures Dec(n) != "" && (Dec(n)[0] == '0' ==> n == 0 && Dec(n) == "0")
  {
    if n >= 10 { PrintedNumberIsShort(n / 10); }
  }

  /** s is a sign or none, and then digits that denote n up to the sign. */
  ghost predicate Denotes(s: string, sign: string, digits: string, n: int) {
    && s == sign + digits && (sign == "" || sign == "+" || sign == "-")
    && digits != "" && AllDigits(digits)
    && n == if sign == "-" then 0 - DecValue(digits) else DecValue(digits)
  }

  /** strconv.ParseInt accepts exactly the signed digits whose value is in range. */
  lemma ParseIntMeaning(s: string, max: nat, n: int)
    ensures ParseInt(s, max) == Some(n)
       <==> 0 - max - 1 <= n <= max && exists sign, digits :: Denotes(s, sign, digits, n)
  {
    if ParseInt(s, max) == Some(n) {
      var sign := if s[0] == '-' || s[0] == '+' then s[..1] else "";
      assert Denotes(s, sign, s[|sign|..], n);
    }
    if sign, digits :| Denotes(s, sign, digits, n) {
      assert s[|sign|..] == digits;
      assert sign == "" ==> s[0] == digits[0] && IsDigit(s[0]);
    }
  }

  /** strconv.ParseUint accepts exactly the digits, without a sign, whose value is in range. */
  lemma ParseUintMeaning(s: string, max: nat, n: nat)
    ensures ParseUint(s, max) == Some(n) <==> n <= max && Denotes(s, "", s, n)
  {
    assert "" + s == s;
  }

  // ---------- Hardware addresses ----------

  predicate SpellsDigit(c: char, d: nat)
    requires d < 16
  {
    c == "0123456789abcdef"[d] || c == "0123456789ABCDEF"[d]
  }

  lemma HexValueMeaning(c: char, d: nat)
    requires d < 16
    ensures HexValue(c) == Some(d) <==> SpellsDigit(c, d)
  {
  }

  /** Two hexadecimal digits of either case at position i. */
  predicate SpellsByte(s: string, i: nat, b: Byte) {
    i + 2 <= |s| && SpellsDigit(s[i], b / 16) && SpellsDigit(s[i+1], b % 16)
  }

  lemma Nibbles(h: nat, l: nat, b: Byte)
    requires h < 16 && l < 16
    ensures 16 * h + l == b <==> h == b / 16 && l == b % 16
  {
  }

  lemma HexByteMeaning(hi: char, lo: char, b: Byte)
    ensures HexByte(hi, lo) == Some(b) <==> SpellsDigit(hi, b / 16) && SpellsDigit(lo, b % 16)
  {
    HexValueMeaning(hi, b / 16);
    HexValueMeaning(lo, b % 16);
    match (HexValue(hi), HexValue(lo))
    case (Some(h), Some(l)) => Nibbles(h, l, b);
    case _ =>
  }

  /** Bytes one by one, with sep between them. */
  ghost predicate Spells(s: string, sep: char, mac: seq<Byte>) {
    && |s| == 3 * |mac| - 1
    && (forall i :: 0 <= i < |mac| ==> SpellsByte(s, 3 * i, mac[i]))
    && (forall i :: 1 <= i < |mac| ==> s[3 * i - 1] == sep)
  }

  /** The i-th pair of bytes, at the i-th group of four digits and a dot. */
  predicate SpellsPair(s: string, i: nat, mac: seq<Byte>)
    requires 2 * i + 1 < |mac|
  {
    SpellsByte(s, 5 * i, mac[2 * i]) && SpellsByte(s, 5 * i + 2, mac[2 * i + 1])
  }

  predicate PairsSpelled(s: string, mac: seq<Byte>) { forall i :: 0 <= i < |mac| / 2 ==> SpellsPair(s, i, mac) }

  predicate DotsPlaced(s: string, groups: nat) {
    |s| == 5 * groups - 1 && forall i :: 1 <= i < groups ==> s[5 * i - 1] == '.'
  }

  /** Bytes two by two, with a dot between the pairs. */
  predicate SpellsDotted(s: string, mac: seq<Byte>) {
    |mac| % 2 == 0 && DotsPlaced(s, |mac| / 2) && PairsSpelled(s, mac)
  }

  lemma SpellsTail(s: string, sep: char, mac: seq<Byte>)
    requires |mac| >= 2 && |s| >= 3
    ensures Spells(s, sep, mac) <==> SpellsByte(s, 0, mac[0]) && s[2] == sep && Spells(s[3..], sep, mac[1..])
  {
    if Spells(s, sep, mac) {
      assert s[3 * 1 - 1] == sep && SpellsByte(s, 3 * 0, mac[0]);
      forall i | 0 <= i < |mac[1..]| ensures SpellsByte(s[3..], 3 * i, mac[1..][i]) {
        assert SpellsByte(s, 3 * (i + 1), mac[i + 1]);
      }
      forall i | 1 <= i < |mac[1..]| ensures s[3..][3 * i - 1] == sep {
        assert s[3 * (i + 1) - 1] == sep;
      }
    }
    if SpellsByte(s, 0, mac[0]) && s[2] == sep && Spells(s[3..], sep, mac[1..]) {
      forall i | 0 <= i < |mac| ensures SpellsByte(s, 3 * i, mac[i]) {
        if i > 0 { assert SpellsByte(s[3..], 3 * (i - 1), mac[1..][i - 1]); }
      }
      forall i | 1 <= i < |mac| ensures s[3 * i - 1] == sep {
        if i > 1 { assert s[3..][3 * (i - 1) - 1] == sep; }
      }
    }
  }

  /** An address is printed with colons and without capitals. */
  lemma {:induction false} PrintedAddress(mac: seq<Byte>)
    ensures forall c :: c in MacString(mac) ==> c in "0123456789abcdef:"
    ensures mac != [] ==> Spells(MacString(mac), ':', mac)
  {
    if mac != [] {
      PrintedAddress(mac[1..]);
      MacStringOctets(mac);
      OctetsMeaning(MacString(mac), ':', mac);
    }
  }

  lemma {:induction false} OctetsMeaning(s: string, sep: char, mac: seq<Byte>)
    ensures Octets(s, sep) == Some(mac) <==> mac != [] && Spells(s, sep, mac)
    decreases |s|
  {
    if |s| >= 2 && mac != [] {
      HexByteMeaning(s[0], s[1], mac[0]);
      if |s| == 2 {
        assert Octets(s, sep) == Some(mac) <==> mac == [mac[0]] && SpellsByte(s, 0, mac[0]);
        if Spells(s, sep, mac) { assert SpellsByte(s, 3 * 0, mac[0]); }
      } else if |mac| >= 2 {
        SpellsTail(s, sep, mac);
        OctetsMeaning(s[3..], sep, mac[1..]);
        assert mac == [mac[0]] + mac[1..];
      } else {
        if Octets(s, sep).Some? { OctetsLength(s, sep); }
      }
    }
  }

  lemma PairShift(s: string, i: nat, mac: seq<Byte>)
    requires |s| >= 5 && 2 * i + 3 < |mac|
    ensures SpellsPair(s, i + 1, mac) <==> SpellsPair(s[5..], i, mac[2..])
  {
    ByteShift(s, 5 * i, mac[2 * i + 2]);
    ByteShift(s, 5 * i + 2, mac[2 * i + 3]);
  }

  lemma ByteShift(s: string, i: nat, b: Byte)
    requires |s| >= 5
    ensures SpellsByte(s, i + 5, b) <==> SpellsByte(s[5..], i, b)
  {
  }

  lemma DotsTail(s: string, groups: nat)
    requires |s| >= 5 && groups >= 2
    ensures DotsPlaced(s, groups) <==> s[4] == '.' && DotsPlaced(s[5..], groups - 1)
  {
    if DotsPlaced(s, groups) {
      assert s[5 * 1 - 1] == '.';
      forall i | 1 <= i < groups - 1 ensures s[5..][5 * i - 1] == '.' {
        assert s[5 * (i + 1) - 1] == '.';
      }
    }
    if s[4] == '.' && DotsPlaced(s[5..], groups - 1) {
      forall i | 1 <= i < groups ensures s[5 * i - 1] == '.' {
        if i > 1 { assert s[5..][5 * (i - 1) - 1] == '.'; }
      }
    }
  }

  lemma PairsTail(s: string, mac: seq<Byte>)
    requires |s| >= 5 && |mac| >= 4
    ensures PairsSpelled(s, mac) <==> SpellsPair(s, 0, mac) && PairsSpelled(s[5..], mac[2..])
  {
    forall i | 0 <= i < |mac| / 2 - 1
      ensures SpellsPair(s, i + 1, mac) <==> SpellsPair(s[5..], i, mac[2..])
    {
      PairShift(s, i, mac);
    }
    if SpellsPair(s, 0, mac) && PairsSpelled(s[5..], mac[2..]) {
      forall i | 0 <= i < |mac| / 2 ensures SpellsPair(s, i, mac) {
        if i > 0 { assert SpellsPair(s[5..], i - 1, mac[2..]); }
      }
    }
    if PairsSpelled(s, mac) {
      forall i | 0 <= i < |mac[2..]| / 2 ensures SpellsPair(s[5..], i, mac[2..]) {
        assert SpellsPair(s, i + 1, mac);
      }
    }
  }

  lemma DottedStep(s: string, mac: seq<Byte>)
    requires |s| >= 5 && |mac| >= 2
    ensures DottedOctets(s, '.') == Some(mac)
       <==> SpellsPair(s, 0, mac) && s[4] == '.' && DottedOctets(s[5..], '.') == Some(mac[2..])
  {
    HexByteMeaning(s[0], s[1], mac[0]);
    HexByteMeaning(s[2], s[3], mac[1]);
    assert mac == [mac[0], mac[1]] + mac[2..];
  }

  lemma DottedSizes(s: string, mac: seq<Byte>)
    requires DottedOctets(s, '.') == Some(mac) || (mac != [] && SpellsDotted(s, mac))
    ensures |mac| >= 2 && |mac| % 2 == 0 && |s| == 5 * (|mac| / 2) - 1
  {
    if DottedOctets(s, '.') == Some(mac) {
      DottedOctetsLength(s, '.');
      assert 5 * |mac| == 2 * (|s| + 1);
    }
  }

  lemma {:induction false} DottedMeaning(s: string, mac: seq<Byte>)
    ensures DottedOctets(s, '.') == Some(mac) <==> mac != [] && SpellsDotted(s, mac)
    decreases |s|
  {
    if |mac| == 2 && |s| == 4 {
      LastPair(s, mac);
    } else if |mac| >= 4 && |mac| % 2 == 0 && |s| == 5 * (|mac| / 2) - 1 {
      DottedStep(s, mac);
      DottedMeaning(s[5..], mac[2..]);
      DottedGrows(s, mac);
    } else if DottedOctets(s, '.') == Some(mac) || (mac != [] && SpellsDotted(s, mac)) {
      DottedSizes(s, mac);
    }
  }

  lemma DottedGrows(s: string, mac: seq<Byte>)
    requires |mac| >= 4 && |mac| % 2 == 0 && |s| >= 5
    ensures SpellsDotted(s, mac) <==> SpellsPair(s, 0, mac) && s[4] == '.' && SpellsDotted(s[5..], mac[2..])
  {
    DotsTail(s, |mac| / 2);
    PairsTail(s, mac);
  }

  lemma LastPair(s: string, mac: seq<Byte>)
    requires |s| == 4 && |mac| == 2
    ensures DottedOctets(s, '.') == Some(mac) <==> SpellsPair(s, 0, mac)
    ensures SpellsDotted(s, mac) <==> SpellsPair(s, 0, mac)
  {
    HexByteMeaning(s[0], s[1], mac[0]);
    HexByteMeaning(s[2], s[3], mac[1]);
    assert mac == [mac[0], mac[1]];
  }

  /** Where the separators of the three notations are. */
  lemma SpelledSeparators(s: string, sep: char, mac: seq<Byte>)
    requires |mac| >= 6 && Spells(s, sep, mac)
    ensures |s| >= 17 && s[2] == sep && SpellsByte(s, 3, mac[1])
  {
    assert s[3 * 1 - 1] == sep && SpellsByte(s, 3 * 1, mac[1]);
  }

  lemma DottedSeparators(s: string, mac: seq<Byte>)
    requires |mac| >= 6 && SpellsDotted(s, mac)
    ensures |s| >= 14 && s[4] == '.' && SpellsByte(s, 2, mac[1])
  {
    assert s[5 * 1 - 1] == '.' && SpellsPair(s, 0, mac);
  }

  lemma NoSeparator(c: char, d: nat)
    requires d < 16 && SpellsDigit(c, d)
    ensures c != ':' && c != '-' && c != '.'
  {
  }

  lemma DottedAddress(s: string, mac: seq<Byte>)
    requires |mac| >= 6 && SpellsDotted(s, mac)
    ensures |s| >= 14 && s[2] != ':' && s[2] != '-' && s[4] == '.'
  {
    DottedSeparators(s, mac);
    NoSeparator(s[2], mac[1] / 16);
  }

  /** net.ParseMAC accepts exactly 6, 8 or 20 bytes in hexadecimal digits of either case, separated by colons, by
      dashes, or in dotted pairs. */
  lemma ParseMacMeaning(s: string, mac: seq<Byte>)
    ensures ParseMac(s) == Some(mac)
       <==> && (|mac| == 6 || |mac| == 8 || |mac| == 20)
            && (Spells(s, ':', mac) || Spells(s, '-', mac) || SpellsDotted(s, mac))
  {
    OctetsMeaning(s, ':', mac);
    OctetsMeaning(s, '-', mac);
    DottedMeaning(s, mac);
    if ParseMac(s) == Some(mac) {
      ParsedMacLength(s);
    } else if |mac| >= 6 {
      if Spells(s, ':', mac) { SpelledSeparators(s, ':', mac); }
      if Spells(s, '-', mac) { SpelledSeparators(s, '-', mac); }
      if SpellsDotted(s, mac) { DottedAddress(s, mac); }
    }
  }
}
