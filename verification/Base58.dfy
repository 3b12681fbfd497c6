/**
 * The Base58 codec of agent-framework/src/utils/base58.ts. Its loops are methods; what they compute is stated on
 * byte strings, with hexadecimal text as a layer on top.
 */
module Base58 {
  import opened Common
  import opened Numerals

  // The alphabet of line 2, broken where a letter is left out.
  const ALPHABET := "123456789" + "ABCDEFGH" + "JKLMN" + "PQRSTUVWXYZ" + "abcdefghijk" + "mnopqrstuvwxyz"
  const HEX := "0123456789abcdef"

  type Bytes = s: seq<nat> | InBase(256, s)

  // ---------------------------------------------------------------- hexadecimal text

  /** The value of one hexadecimal digit in either case. */
  function Nibble(c: char): (v: Option<nat>)
    ensures v.Some? ==> v.value < 16
  {
    if '0' <= c <= '9' then Some((c - '0') as nat)
    else if 'a' <= c <= 'f' then Some((c - 'a') as nat + 10)
    else if 'A' <= c <= 'F' then Some((c - 'A') as nat + 10)
    else None
  }

  /** Buffer.from(text, 'hex'): whole pairs up to the first character that is not a hexadecimal digit. */
  function FromHex(text: string): Bytes {
    if |text| < 2 || Nibble(text[0]).None? || Nibble(text[1]).None? then []
    else [Nibble(text[0]).value * 16 + Nibble(text[1]).value] + FromHex(text[2..])
  }

  function Nibbles(bytes: Bytes): (digits: seq<nat>)
    ensures InBase(16, digits) && |digits| == 2 * |bytes|
  {
    if bytes == [] then [] else [bytes[0] / 16, bytes[0] % 16] + Nibbles(bytes[1..])
  }

  function HexText(digits: seq<nat>): (text: string)
    requires InBase(16, digits)
    ensures |text| == |digits|
    ensures forall i :: 0 <= i < |digits| ==> text[i] == HEX[digits[i]] && Nibble(text[i]) == Some(digits[i])
  {
    seq(|digits|, i requires 0 <= i < |digits| => HEX[digits[i]])
  }

  /** bytes.toString('hex') */
  function ToHex(bytes: Bytes): string {
    HexText(Nibbles(bytes))
  }

  /** BigInt('0x' + text), for text that consists of hexadecimal digits. */
  function HexNumber(text: string): nat {
    Value(16, seq(|text|, i requires 0 <= i < |text| =>
      match Nibble(text[i]) case Some(v) => v case None => 0))
  }

  /** num.toString(16) */
  function NumberHex(n: nat): string {
    if n == 0 then "0" else HexText(Digits(16, n))
  }

  lemma FromHexStep(text: string, byte: nat)
    requires byte < 256 && |text| >= 2 && Nibble(text[0]) == Some(byte / 16) && Nibble(text[1]) == Some(byte % 16)
    ensures FromHex(text) == [byte] + FromHex(text[2..])
  {
    assert byte / 16 * 16 + byte % 16 == byte;
  }

  lemma HexTextTail(digits: seq<nat>)
    requires |digits| >= 2 && InBase(16, digits)
    ensures HexText(digits)[2..] == HexText(digits[2..])
  {
  }

  lemma {:induction false} FromToHex(bytes: Bytes)
    ensures FromHex(ToHex(bytes)) == bytes
  {
    if bytes != [] {
      assert Nibbles(bytes)[2..] == Nibbles(bytes[1..]);
      HexTextTail(Nibbles(bytes));
      FromHexStep(ToHex(bytes), bytes[0]);
      FromToHex(bytes[1..]);
      assert bytes == [bytes[0]] + bytes[1..];
    }
  }

  /** A character is a digit exactly if it is in the table, in either case, and stands for its position there. */
  lemma NibbleSpells(c: char, digit: nat)
    ensures Nibble(c) == Some(digit) <==> digit < 16 && (c == "0123456789abcdef"[digit] || c == "0123456789ABCDEF"[digit])
  {
  }

  predicate IsPair(text: string) {
    |text| >= 2 && Nibble(text[0]).Some? && Nibble(text[1]).Some?
  }

  predicate IsByte(high: char, low: char, byte: nat) {
    Nibble(high) == Some(byte / 16) && Nibble(low) == Some(byte % 16)
  }

  /** The text is these bytes pair by pair, up to the first pair that is not two hexadecimal digits. */
  predicate ReadsAs(text: string, bytes: seq<nat>) {
    if bytes == [] then !IsPair(text) else |text| >= 2 && IsByte(text[0], text[1], bytes[0]) && ReadsAs(text[2..], bytes[1..])
  }

  lemma PairIsByte(high: char, low: char)
    requires Nibble(high).Some? && Nibble(low).Some?
    ensures IsByte(high, low, Nibble(high).value * 16 + Nibble(low).value)
  {
  }

  lemma {:induction false} PairsAreRead(text: string)
    ensures ReadsAs(text, FromHex(text))
  {
    if IsPair(text) {
      PairIsByte(text[0], text[1]);
      PairsAreRead(text[2..]);
      assert FromHex(text)[1..] == FromHex(text[2..]);
    }
  }

  /** Nibbles read from the other end, as Value reads them. */
  lemma {:induction false} NibblesSnoc(bytes: Bytes)
    requires bytes != []
    ensures var last := bytes[|bytes| - 1];
            Nibbles(bytes) == Nibbles(bytes[..|bytes| - 1]) + [last / 16, last % 16]
  {
    if |bytes| == 1 {
      assert bytes[..0] == [] && bytes[1..] == [];
    } else {
      NibblesSnoc(bytes[1..]);
      assert bytes[1..][..|bytes| - 2] == bytes[..|bytes| - 1][1..];
    }
  }

  /** Reading the hexadecimal text of a byte string gives its value in base 256. */
  lemma {:induction false} NibblesValue(bytes: Bytes)
    ensures Value(16, Nibbles(bytes)) == Value(256, bytes)
  {
    if bytes != [] {
      var init, last := bytes[..|bytes| - 1], bytes[|bytes| - 1];
      NibblesValue(init);
      NibblesSnoc(bytes);
      var digits := Nibbles(bytes);
      var upper := digits[..|digits| - 1];
      assert upper[..|upper| - 1] == Nibbles(init);
      assert Value(16, upper) == Value(256, init) * 16 + last / 16;
    }
  }

  /** The nibbles of a byte string's shortest form are its hexadecimal digits, padded to even length. */
  lemma NibblesOfDigits(n: nat)
    requires 0 < n
    ensures var digits := Digits(16, n);
            Nibbles(Digits(256, n)) == if |digits| % 2 != 0 then [0] + digits else digits
  {
    var bytes: Bytes := Digits(256, n);
    NibblesValue(bytes);
    DigitsDenote(256, n);
    FirstNibbles(bytes);
    EvenNumeral(Nibbles(bytes), |bytes|);
  }

  lemma EvenNumeral(s: seq<nat>, half: nat)
    requires InBase(16, s) && |s| == 2 * half && LeadingRun(s, 0) <= 1
    ensures var digits := Digits(16, Value(16, s));
            s == if |digits| % 2 != 0 then [0] + digits else digits
  {
    NumeralOf(16, s);
  }

  lemma FirstNibbles(bytes: Bytes)
    requires bytes != [] && bytes[0] != 0
    ensures LeadingRun(Nibbles(bytes), 0) <= 1
  {
  }

  /** Padding the shortest hexadecimal text to even length gives the text of the shortest byte string. */
  lemma PaddedHexIsByteHex(n: nat)
    requires 0 < n
    ensures var hex := NumberHex(n);
            (if |hex| % 2 != 0 then "0" + hex else hex) == ToHex(Digits(256, n))
  {
    NibblesOfDigits(n);
    ZeroNibbleInFront(Digits(16, n));
  }

  lemma ZeroNibbleInFront(digits: seq<nat>)
    requires InBase(16, digits)
    ensures HexText([0] + digits) == "0" + HexText(digits)
  {
  }

  // ---------------------------------------------------------------- the alphabet

  /** ALPHABET[d], by the runs of consecutive characters that make up the alphabet. */
  function Symbol(d: nat): (c: char)
    requires d < 58
  {
    if d < 9 then '1' + d as char
    else if d < 17 then 'A' + (d - 9) as char
    else if d < 22 then 'J' + (d - 17) as char
    else if d < 33 then 'P' + (d - 22) as char
    else if d < 44 then 'a' + (d - 33) as char
    else 'm' + (d - 44) as char
  }

  /** ALPHABET_MAP[c] */
  function SymbolValue(c: char): (v: Option<nat>)
    ensures v.Some? ==> v.value < 58 && Symbol(v.value) == c
    ensures v.None? ==> forall d: nat :: d < 58 ==> Symbol(d) != c
  {
    if '1' <= c <= '9' then Some((c - '1') as nat)
    else if 'A' <= c <= 'H' then Some((c - 'A') as nat + 9)
    else if 'J' <= c <= 'N' then Some((c - 'J') as nat + 17)
    else if 'P' <= c <= 'Z' then Some((c - 'P') as nat + 22)
    else if 'a' <= c <= 'k' then Some((c - 'a') as nat + 33)
    else if 'm' <= c <= 'z' then Some((c - 'm') as nat + 44)
    else None
  }

  /** The runs spell the alphabet of the source. */
  lemma AlphabetSpelling(d: nat)
    requires d < 58
    ensures |ALPHABET| == 58 && ALPHABET[d] == Symbol(d)
    ensures Symbol(d) == if d < 9 then "123456789"[d]
                         else if d < 17 then "ABCDEFGH"[d - 9]
                         else if d < 22 then "JKLMN"[d - 17]
                         else if d < 33 then "PQRSTUVWXYZ"[d - 22]
                         else if d < 44 then "abcdefghijk"[d - 33]
                         else "mnopqrstuvwxyz"[d - 44]
  {
  }

  predicate ValidBase58(text: string) {
    forall i :: 0 <= i < |text| ==> SymbolValue(text[i]).Some?
  }

  function Symbols(digits: seq<nat>): (text: string)
    requires InBase(58, digits)
    ensures |text| == |digits| && ValidBase58(text)
    ensures forall i :: 0 <= i < |digits| ==> text[i] == Symbol(digits[i])
  {
    seq(|digits|, i requires 0 <= i < |digits| => Symbol(digits[i]))
  }

  function SymbolDigits(text: string): (digits: seq<nat>)
    requires ValidBase58(text)
    ensures InBase(58, digits) && |digits| == |text|
    ensures forall i :: 0 <= i < |text| ==> Symbol(digits[i]) == text[i]
  {
    seq(|text|, i requires 0 <= i < |text| => SymbolValue(text[i]).value)
  }

  lemma SymbolsInverse(digits: seq<nat>)
    requires InBase(58, digits)
    ensures SymbolDigits(Symbols(digits)) == digits
  {
  }

  lemma LeadingOnes(text: string)
    requires ValidBase58(text)
    ensures LeadingRun(text, '1') == LeadingRun(SymbolDigits(text), 0)
  {
  }

  // ---------------------------------------------------------------- what the codec computes

  function EncodeBytes(bytes: Bytes): string {
    Symbols(Numeral(58, LeadingRun(bytes, 0), Value(256, bytes)))
  }

  /** The bytes written by decodeBase58: a zero value still prints the digits "00". */
  function DecodeBytes(text: string): Bytes
    requires ValidBase58(text)
  {
    var n := Value(58, SymbolDigits(text));
    Numeral(256, LeadingRun(text, '1') + (if n == 0 then 1 else 0), n)
  }

  function Encode(input: string): Result<string> {
    if FromHex(input) == [] then Failure("Cannot convert 0x to a BigInt")
    else Success(EncodeBytes(FromHex(input)))
  }

  function Decode(input: string): Result<string> {
    if input == "" then Success("")
    else if ValidBase58(input) then Success(ToHex(DecodeBytes(input)))
    else Failure("Invalid base58 character")
  }

  // ---------------------------------------------------------------- the loops

  lemma HexNumberOfBytes(bytes: Bytes)
    ensures HexNumber(ToHex(bytes)) == Value(256, bytes)
  {
    NibblesValue(bytes);
    var text := ToHex(bytes);
    assert seq(|text|, i requires 0 <= i < |text| =>
      match Nibble(text[i]) case Some(v) => v case None => 0) == Nibbles(bytes);
  }

  lemma SymbolsOneMore(n: nat)
    requires 0 < n
    ensures Symbols(Digits(58, n)) == Symbols(Digits(58, n / 58)) + [Symbol(n % 58)]
  {
  }

  lemma OnesInFront(z: nat, n: nat)
    ensures Symbols(Numeral(58, z, n)) == Repeat('1', z) + Symbols(Digits(58, n))
  {
  }

  method EncodeBase58(input: string) returns (r: Result<string>)
    ensures r == Encode(input)
  {
    var bytes := FromHex(input);
    if bytes == [] {
      return Failure("Cannot convert 0x to a BigInt");
    }
    var num := HexNumber(ToHex(bytes));
    HexNumberOfBytes(bytes);
    OnesInFront(LeadingRun(bytes, 0), num);
    var output := NumberSymbols(num);
    output := PadOnes(bytes, output);
    return Success(output);
  }

  /** Lines 16 to 20: repeated division by 58. */
  method NumberSymbols(n: nat) returns (output: string)
    ensures output == Symbols(Digits(58, n))
  {
    output := "";
    var num := n;
    while num > 0
      invariant Symbols(Digits(58, num)) + output == Symbols(Digits(58, n))
    {
      SymbolsOneMore(num);
      var remainder := num % 58;
      output := [Symbol(remainder)] + output;
      num := num / 58;
    }
  }

  /** Lines 23 to 25: one '1' for each leading zero byte. */
  method PadOnes(bytes: Bytes, symbols: string) returns (output: string)
    ensures output == Repeat('1', LeadingRun(bytes, 0)) + symbols
  {
    output := symbols;
    var i := 0;
    while i < |bytes| && bytes[i] == 0
      invariant i <= LeadingRun(bytes, 0)
      invariant output == Repeat('1', i) + symbols
    {
      output := "1" + output;
      i := i + 1;
    }
  }

  lemma ValueOneMore(text: string)
    requires text != "" && ValidBase58(text)
    ensures var k := |text| - 1;
            Value(58, SymbolDigits(text)) == Value(58, SymbolDigits(text[..k])) * 58 + SymbolValue(text[k]).value
  {
    var k := |text| - 1;
    assert SymbolDigits(text)[..k] == SymbolDigits(text[..k]);
  }

  lemma TwoMoreZeros(z: nat, tail: string)
    requires z > 0
    ensures "00" + (Repeat('0', 2 * (z - 1)) + tail) == Repeat('0', 2 * z) + tail
  {
    var fewer := Repeat('0', 2 * (z - 1));
    assert Repeat('0', 2 * z) == "00" + fewer;
    assert ("00" + fewer) + tail == "00" + (fewer + tail);
  }

  lemma NumeralMore(z: nat, n: nat)
    ensures Numeral(256, z + 1, n) == [0] + Numeral(256, z, n)
  {
  }

  /** A zero has one zero byte more than it has leading ones. */
  function Extra(n: nat): nat {
    if n == 0 then 1 else 0
  }

  lemma {:induction false} ZerosInFront(z: nat, n: nat)
    ensures ToHex(Numeral(256, z + Extra(n), n)) == Repeat('0', 2 * z) + ToHex(Numeral(256, Extra(n), n))
  {
    if z > 0 {
      ZerosInFront(z - 1, n);
      NumeralMore(z - 1 + Extra(n), n);
      ZeroInFront(Numeral(256, z - 1 + Extra(n), n));
      TwoMoreZeros(z, ToHex(Numeral(256, Extra(n), n)));
    }
  }

  lemma ZeroInFront(rest: Bytes)
    ensures ToHex([0] + rest) == "00" + ToHex(rest)
  {
  }

  method DecodeBase58(input: string) returns (r: Result<string>)
    ensures r == Decode(input)
  {
    if input == "" {
      return Success("");
    }
    var num := ParseNumber(input);
    if num.None? {
      return Failure("Invalid base58 character");
    }
    var hex := EvenHex(num.value);
    hex := PadZeros(input, hex);
    ZerosInFront(LeadingRun(input, '1'), num.value);
    return Success(hex);
  }

  /** Lines 37 to 44: Horner's rule, stopped by the first character outside the alphabet. */
  method ParseNumber(input: string) returns (r: Option<nat>)
    ensures r.Some? <==> ValidBase58(input)
    ensures r.Some? ==> r.value == Value(58, SymbolDigits(input))
  {
    var num := 0;
    for i := 0 to |input|
      invariant ValidBase58(input[..i])
      invariant num == Value(58, SymbolDigits(input[..i]))
    {
      var value := SymbolValue(input[i]);
      if value.None? {
        return None;
      }
      assert input[..i + 1][..i] == input[..i];
      ValueOneMore(input[..i + 1]);
      num := num * 58 + value.value;
    }
    assert input[..|input|] == input;
    return Some(num);
  }

  /** Lines 55 to 57: one "00" for each leading '1'. */
  method PadZeros(input: string, hex: string) returns (padded: string)
    ensures padded == Repeat('0', 2 * LeadingRun(input, '1')) + hex
  {
    padded := hex;
    var i := 0;
    while i < |input| && input[i] == '1'
      invariant i <= LeadingRun(input, '1')
      invariant padded == Repeat('0', 2 * i) + hex
    {
      assert Repeat('0', 2 * i + 2) == "00" + Repeat('0', 2 * i);
      padded := "00" + padded;
      i := i + 1;
    }
  }

  /** Lines 47 to 52: the number in hexadecimal, padded to even length. */
  method EvenHex(num: nat) returns (hex: string)
    ensures hex == ToHex(Numeral(256, if num == 0 then 1 else 0, num))
  {
    hex := NumberHex(num);
    if |hex| % 2 != 0 {
      hex := "0" + hex;
    }
    if num == 0 {
      ZeroInFront([]);
      assert Numeral(256, 1, 0) == [0] + [];
    } else {
      PaddedHexIsByteHex(num);
      assert Numeral(256, 0, num) == Digits(256, num);
    }
  }

  // ---------------------------------------------------------------- round trips

  predicate AllOnes(text: string) {
    forall i :: 0 <= i < |text| ==> text[i] == '1'
  }

  /** Decoding an encoding gives the bytes back exactly when some byte is not zero; otherwise one zero too many. */
  lemma DecodeEncode(bytes: Bytes)
    ensures DecodeBytes(EncodeBytes(bytes)) == bytes <==> !AllZero(bytes)
    ensures AllZero(bytes) ==> DecodeBytes(EncodeBytes(bytes)) == bytes + [0]
  {
    var z, n := LeadingRun(bytes, 0), Value(256, bytes);
    var text := EncodeBytes(bytes);
    SymbolsInverse(Numeral(58, z, n));
    NumeralParts(58, z, n);
    LeadingOnes(text);
    NumeralOf(256, bytes);
    if AllZero(bytes) {
      assert Numeral(256, z + 1, 0) == bytes + [0];
      assert |bytes + [0]| != |bytes|;
    }
  }

  /** Encoding a decoding gives the text back exactly when some character is not '1'; otherwise one '1' too many. */
  lemma EncodeDecode(text: string)
    requires ValidBase58(text)
    ensures EncodeBytes(DecodeBytes(text)) == text <==> !AllOnes(text)
    ensures AllOnes(text) ==> EncodeBytes(DecodeBytes(text)) == text + "1"
  {
    var digits := SymbolDigits(text);
    var z, n := LeadingRun(text, '1'), Value(58, digits);
    LeadingOnes(text);
    OnesAreZeros(text);
    NumeralOf(58, digits);
    assert Symbols(digits) == text;
    NumeralParts(256, if n == 0 then z + 1 else z, n);
    if n == 0 {
      OneMore(z);
    }
  }

  lemma OneMore(z: nat)
    ensures Symbols(Numeral(58, z + 1, 0)) == Symbols(Numeral(58, z, 0)) + "1"
  {
  }

  lemma OnesAreZeros(text: string)
    requires ValidBase58(text)
    ensures AllZero(SymbolDigits(text)) <==> AllOnes(text)
  {
  }

  /** The same on hexadecimal input: what comes back is the canonical lower-case text of the bytes that were read. */
  lemma HexRoundTrip(input: string)
    ensures FromHex(input) == [] <==> Encode(input).Failure?
    ensures Encode(input).Success? ==>
              && Decode(Encode(input).value).Success?
              && (FromHex(Decode(Encode(input).value).value) == FromHex(input) <==> !AllZero(FromHex(input)))
              && (!AllZero(FromHex(input)) ==> Decode(Encode(input).value).value == ToHex(FromHex(input)))
  {
    var bytes := FromHex(input);
    if bytes != [] {
      EncodedNotEmpty(bytes);
      DecodeEncode(bytes);
      FromToHex(DecodeBytes(EncodeBytes(bytes)));
    }
  }

  lemma EncodedNotEmpty(bytes: Bytes)
    requires bytes != []
    ensures EncodeBytes(bytes) != ""
  {
    NumeralOf(256, bytes);
  }

  /** The same on Base58 input, through the hexadecimal text between the two functions. */
  lemma Base58RoundTrip(text: string)
    requires Decode(text).Success?
    ensures text == "" ==> Encode(Decode(text).value).Failure?
    ensures Encode(Decode(text).value) == Success(text) <==> !AllOnes(text)
  {
    if text != "" {
      EncodeDecode(text);
      FromToHex(DecodeBytes(text));
      DecodedNotEmpty(text);
    }
  }

  lemma DecodedNotEmpty(text: string)
    requires text != "" && ValidBase58(text)
    ensures DecodeBytes(text) != []
  {
  }

  lemma AlphabetHas(c: char)
    ensures SymbolValue(c).Some? <==> c in ALPHABET
  {
    if SymbolValue(c).Some? {
      AlphabetSpelling(SymbolValue(c).value);
    } else if c in ALPHABET {
      AlphabetSpelling(0);
      var d :| 0 <= d < |ALPHABET| && ALPHABET[d] == c;
      AlphabetSpelling(d);
    }
  }

  /** Decoding fails exactly on text with a character outside the alphabet, however long it is. */
  lemma DecodesIff(text: string)
    ensures Decode(text).Success? <==> forall c <- text :: c in ALPHABET
  {
    forall i | 0 <= i < |text| ensures SymbolValue(text[i]).Some? <==> text[i] in ALPHABET { AlphabetHas(text[i]); }
    assert ValidBase58(text) <==> forall i :: 0 <= i < |text| ==> text[i] in ALPHABET;
  }

  /** No two byte strings share an encoding, although all-zero strings do not survive the round trip. */
  lemma EncodeInjective(a: Bytes, b: Bytes)
    requires EncodeBytes(a) == EncodeBytes(b)
    ensures a == b
  {
    DecodeEncode(a);
    DecodeEncode(b);
    if AllZero(a) && AllZero(b) {
      assert (a + [0])[..|a|] == a && (b + [0])[..|b|] == b;
    }
  }

  // ---------------------------------------------------------------- length

  /**
   * The digit part has the k with 58^(k-1) <= value < 58^k, the whole text has z + k characters, and k is bounded by
   * 8(k - 1) < 11(n - z): a byte costs less than 11/8 characters.
   */
  lemma EncodedLength(bytes: Bytes)
    ensures var z, k := LeadingRun(bytes, 0), |Digits(58, Value(256, bytes))|;
            && |EncodeBytes(bytes)| == z + k
            && Value(256, bytes) < Pow(58, k)
            && (!AllZero(bytes) ==>
                  && 1 <= k
                  && Pow(58, k - 1) <= Value(256, bytes)
                  && 8 * (k - 1) < 11 * (|bytes| - z))
  {
    var z, n := LeadingRun(bytes, 0), Value(256, bytes);
    DigitsDenote(58, n);
    ValueBelowPow(58, Digits(58, n));
    NumeralOf(256, bytes);
    if !AllZero(bytes) {
      ValueAtLeastPow(58, Digits(58, n));
      DigitsDenote(256, n);
      ValueBelowPow(256, Digits(256, n));
      ExponentBound(|Digits(58, n)| - 1, |Digits(256, n)|);
    }
  }

  /** 256^8 < 58^11 */
  lemma ElevenSymbolsHoldEightBytes()
    ensures Pow(256, 8) < Pow(58, 11)
  {
  }

  lemma ExponentBound(k: nat, m: nat)
    requires Pow(58, k) < Pow(256, m) && 0 < m
    ensures 8 * k < 11 * m
  {
    if 11 * m <= 8 * k {
      ElevenSymbolsHoldEightBytes();
      PowStrictBase(Pow(58, k), Pow(256, m), 8);
      PowMul(58, k, 8);
      PowMul(256, m, 8);
      PowMul(256, 8, m);
      assert Pow(256, m * 8) == Pow(Pow(256, 8), m);
      PowStrictBase(Pow(256, 8), Pow(58, 11), m);
      PowMul(58, 11, m);
      PowMonotoneExponent(58, 11 * m, k * 8);
      assert false;
    }
  }
}
