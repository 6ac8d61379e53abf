/** 128-bit identifiers: generation and their 26-character Crockford Base32 text. */
module IdCodec {
  import opened Common
  import opened Digits

  type byte = n: nat | n < 256

  type RawId = id: seq<byte> | |id| == 16 witness seq(16, i => 0)

  const ALPHABET: string := "0123456789abcdefghjkmnpqrstvwxyz"

  function Lower(c: char): char
  {
    if 'A' <= c <= 'Z' then c + ' ' else c
  }

  /** The digit a character stands for, upper case included. */
  method CrockfordValue(c: char) returns (v: Option<nat>)
    ensures v.Some? <==> Lower(c) in ALPHABET
    ensures v.Some? ==> v.value < 32 && ALPHABET[v.value] == Lower(c)
  {
    var d := Lower(c);
    if '0' <= d <= '9' {
      var i := d as int - '0' as int;
      assert ALPHABET[i] == d;
      return Some(i);
    }
    for i := 10 to 32
      invariant forall j :: 0 <= j < i ==> ALPHABET[j] != d
    {
      if ALPHABET[i] == d { return Some(i); }
    }
    return None;
  }

  // ---- What the text means ----

  /** The position of a character in the alphabet. */
  ghost function DigitOf(c: char): (d: nat)
    requires Lower(c) in ALPHABET
    ensures d < 32 && ALPHABET[d] == Lower(c)
  {
    var d :| 0 <= d < |ALPHABET| && ALPHABET[d] == Lower(c); d
  }

  lemma AlphabetAscends(i: nat, j: nat)
    requires i < j < 32
    ensures ALPHABET[i] < ALPHABET[j]
  {
  }

  lemma DigitOfUnique(c: char, d: nat)
    requires Lower(c) in ALPHABET && d < 32 && ALPHABET[d] == Lower(c)
    ensures DigitOf(c) == d
  {
    var e := DigitOf(c);
    if e < d { AlphabetAscends(e, d); } else if d < e { AlphabetAscends(d, e); }
  }

  ghost predicate Alphabetic(text: string)
  {
    forall i :: 0 <= i < |text| ==> Lower(text[i]) in ALPHABET
  }

  ghost function TextDigits(text: string): (ds: seq<nat>)
    requires Alphabetic(text)
    ensures |ds| == |text| && Below(ds, 32)
  {
    seq(|text|, i requires 0 <= i < |text| => DigitOf(text[i]))
  }

  /** 26 alphabet characters of either case, the first of them at most 7. */
  ghost predicate IdText(text: string)
  {
    |text| == 26 && Alphabetic(text) && DigitOf(text[0]) <= 7
  }

  ghost function TextOf(ds: seq<nat>): string
    requires Below(ds, 32)
  {
    seq(|ds|, i requires 0 <= i < |ds| => ALPHABET[ds[i]])
  }

  ghost function Encode(id: RawId): string
  {
    DigitsBelow(Value(id, 256), 26, 32);
    TextOf(Digits.Digits(Value(id, 256), 26, 32))
  }

  ghost function Decode(text: string): Result<RawId>
  {
    if IdText(text) then
      DigitsBelow(Value(TextDigits(text), 32), 16, 256);
      Ok(Digits.Digits(Value(TextDigits(text), 32), 16, 256))
    else Err("invalid ID")
  }

  // ---- The loops ----

  /** One turn of the encoding loop. */
  lemma PeelDigit(x: nat, i: nat, tail: seq<nat>)
    requires i > 0 && Below(tail, 32)
    ensures Digits.Digits(x, i, 32) + tail == Digits.Digits(x / 32, i - 1, 32) + ([x % 32] + tail)
    ensures Below([x % 32] + tail, 32) && TextOf([x % 32] + tail) == [ALPHABET[x % 32]] + TextOf(tail)
  {
  }

  /** Digits from the right: mask, look up, shift. */
  method EncodeId(id: RawId) returns (text: string)
    ensures text == Encode(id)
  {
    var x := Value(id, 256);
    text := "";
    ghost var all, tail: seq<nat> := Digits.Digits(x, 26, 32), [];
    var i := 26;
    while i > 0
      invariant 0 <= i <= 26 && Below(tail, 32) && text == TextOf(tail)
      invariant all == Digits.Digits(x, i, 32) + tail
    {
      PeelDigit(x, i, tail);
      tail := [x % 32] + tail;
      text := [ALPHABET[x % 32]] + text;
      x := x / 32;
      i := i - 1;
    }
  }

  /** One turn of the decoding loop. */
  lemma ShiftIn(text: string, i: nat, d: nat)
    requires i < |text| && Alphabetic(text[..i]) && d < 32 && ALPHABET[d] == Lower(text[i])
    ensures Alphabetic(text[..i + 1]) && DigitOf(text[i]) == d
    ensures Value(TextDigits(text[..i + 1]), 32) == Value(TextDigits(text[..i]), 32) * 32 + d
  {
    DigitOfUnique(text[i], d);
    var ds := TextDigits(text[..i + 1]);
    assert ds[..i] == TextDigits(text[..i]) && ds[i] == d;
    assert Value(ds, 32) == Value(ds[..i], 32) * 32 + ds[i];
  }

  /** Shift in one digit per character; refuse at the first bad one. */
  method DecodeId(text: string) returns (r: Result<RawId>)
    ensures r == Decode(text)
  {
    if |text| != 26 {
      return Err("invalid ID");
    }
    var x := 0;
    var i := 0;
    while i < 26
      invariant 0 <= i <= 26 && Alphabetic(text[..i])
      invariant i > 0 ==> DigitOf(text[0]) <= 7
      invariant x == Value(TextDigits(text[..i]), 32)
    {
      var v := CrockfordValue(text[i]);
      if v.None? || (i == 0 && v.value > 7) {
        if v.Some? { DigitOfUnique(text[i], v.value); }
        return Err("invalid ID");
      }
      ShiftIn(text, i, v.value);
      x := x * 32 + v.value;
      i := i + 1;
    }
    assert text[..26] == text;
    DigitsBelow(x, 16, 256);
    r := Ok(Digits.Digits(x, 16, 256));
  }

  // ---- Round trips ----

  const TWO128: nat := 0x1_0000_0000_0000_0000_0000_0000_0000_0000

  lemma Powers()
    ensures Pow(256, 16) == TWO128
    ensures 8 * Pow(32, 25) == TWO128
    ensures Pow(32, 26) == 4 * TWO128
    ensures Pow(256, 6) == 0x1_0000_0000_0000
  {
    assert Pow(256, 8) == 0x1_0000_0000_0000_0000;
    assert Pow(256, 12) == 0x1_0000_0000_0000_0000_0000_0000;
    assert Pow(32, 10) == 0x4_0000_0000_0000;
    assert Pow(32, 18) == 0x400_0000_0000_0000_0000_0000;
  }

  lemma IdBelow(id: RawId)
    ensures Value(id, 256) < TWO128
  {
    Powers();
    ValueBelow(id, 256);
  }

  /** The leading digit of 26 is at most 7 exactly for values of 128 bits. */
  lemma LeadingDigit(ds: seq<nat>)
    requires |ds| == 26 && Below(ds, 32)
    ensures ds[0] <= 7 <==> Value(ds, 32) < TWO128
  {
    Powers();
    ValueConcat([ds[0]], ds[1..], 32);
    assert [ds[0]] + ds[1..] == ds;
    assert Value([ds[0]], 32) == ds[0];
    ValueBelow(ds[1..], 32);
    var p := Pow(32, 25);
    if ds[0] <= 7 { MulMono(ds[0], 7, p); } else { MulMono(8, ds[0], p); }
  }

  lemma DigitsOfText(ds: seq<nat>)
    requires Below(ds, 32)
    ensures Alphabetic(TextOf(ds)) && TextDigits(TextOf(ds)) == ds
  {
    forall i | 0 <= i < |ds| ensures Lower(TextOf(ds)[i]) in ALPHABET && DigitOf(TextOf(ds)[i]) == ds[i] {
      LowerAlphabet(ds[i]);
      DigitOfUnique(TextOf(ds)[i], ds[i]);
    }
  }

  lemma LowerAlphabet(d: nat)
    requires d < 32
    ensures Lower(ALPHABET[d]) == ALPHABET[d]
  {
  }

  /** Decoding inverts encoding on all 128-bit values. */
  lemma DecodeEncode(id: RawId)
    ensures Decode(Encode(id)) == Ok(id)
  {
    var x := Value(id, 256);
    var ds := Digits.Digits(x, 26, 32);
    DigitsBelow(x, 26, 32);
    IdBelow(id);
    Powers();
    ValueOfDigits(x, 26, 32);
    LeadingDigit(ds);
    DigitsOfText(ds);
    assert DigitOf(Encode(id)[0]) == TextDigits(Encode(id))[0];
    DigitsOfValue(id, 256);
  }

  /** Whatever is accepted re-encodes to its lower-case form, and fits 16 bytes. */
  lemma EncodeDecode(text: string)
    requires IdText(text)
    ensures Decode(text).Ok? && Value(Decode(text).value, 256) == Value(TextDigits(text), 32)
    ensures Encode(Decode(text).value) == seq(26, i requires 0 <= i < 26 => Lower(text[i]))
  {
    var ds := TextDigits(text);
    var x := Value(ds, 32);
    Powers();
    LeadingDigit(ds);
    ValueOfDigits(x, 16, 256);
    DigitsOfValue(ds, 32);
    forall i | 0 <= i < 26 ensures TextOf(ds)[i] == Lower(text[i]) {}
  }

  function Codes(text: string): seq<nat>
  {
    seq(|text|, i requires 0 <= i < |text| => text[i] as nat)
  }

  lemma {:induction false} TextOrder(a: seq<nat>, c: seq<nat>)
    requires Below(a, 32) && Below(c, 32) && |a| == |c|
    ensures LexLess(Codes(TextOf(a)), Codes(TextOf(c))) <==> LexLess(a, c)
  {
    if a != [] {
      TextOrder(a[1..], c[1..]);
      assert Codes(TextOf(a))[1..] == Codes(TextOf(a[1..]));
      assert Codes(TextOf(c))[1..] == Codes(TextOf(c[1..]));
      if a[0] < c[0] { AlphabetAscends(a[0], c[0]); } else if c[0] < a[0] { AlphabetAscends(c[0], a[0]); }
    }
  }

  /** Texts sort like the identifiers they stand for. */
  lemma EncodePreservesOrder(a: RawId, c: RawId)
    ensures LexLess(Codes(Encode(a)), Codes(Encode(c))) <==> LexLess(a, c)
  {
    var x, y := Value(a, 256), Value(c, 256);
    DigitsBelow(x, 26, 32);
    DigitsBelow(y, 26, 32);
    IdBelow(a);
    IdBelow(c);
    Powers();
    ValueOfDigits(x, 26, 32);
    ValueOfDigits(y, 26, 32);
    TextOrder(Digits.Digits(x, 26, 32), Digits.Digits(y, 26, 32));
    LexOrderIsValueOrder(Digits.Digits(x, 26, 32), Digits.Digits(y, 26, 32), 32);
    LexOrderIsValueOrder(a, c, 256);
  }

  // ---- Generation ----

  const EXHAUSTED: nat := 0x1_0000_0000_0000

  ghost function IdFor(prefix: seq<byte>, n: nat): RawId
    requires |prefix| == 10 && n < EXHAUSTED
  {
    DigitsBelow(n, 6, 256);
    prefix + Digits.Digits(n, 6, 256)
  }

  /** The process-wide generator: a random prefix and an atomic counter. */
  class Generator {
    const prefix: seq<byte>
    var counter: nat

    constructor (prefix: seq<byte>)
      requires |prefix| == 10
      ensures this.prefix == prefix && counter == 0
    {
      this.prefix := prefix;
      counter := 0;
    }

    /** The counter moves in any case; at 2^48 the generator panics. */
    method NextId() returns (r: Result<RawId>)
      requires |prefix| == 10
      modifies this
      ensures counter == Add64(old(counter), 1)
      ensures r.Ok? <==> counter < EXHAUSTED
      ensures r.Ok? ==> r.value == IdFor(prefix, counter)
    {
      counter := Add64(counter, 1);
      var n := counter;
      if n >= EXHAUSTED {
        return Err("ID counter exhausted");
      }
      var tail: seq<byte> := [n / 0x100_0000_0000 % 256, n / 0x1_0000_0000 % 256, n / 0x100_0000 % 256,
                              n / 0x1_0000 % 256, n / 0x100 % 256, n % 256];
      SixBytes(n);
      r := Ok(prefix + tail);
    }
  }

  lemma SixBytes(n: nat)
    ensures Digits.Digits(n, 6, 256)
         == [n / 0x100_0000_0000 % 256, n / 0x1_0000_0000 % 256, n / 0x100_0000 % 256,
             n / 0x1_0000 % 256, n / 0x100 % 256, n % 256]
  {
    var n1, n2, n3, n4, n5 := n / 256, n / 0x1_0000, n / 0x100_0000, n / 0x1_0000_0000, n / 0x100_0000_0000;
    assert n1 / 256 == n2 && n2 / 256 == n3 && n3 / 256 == n4 && n4 / 256 == n5;
    assert Digits.Digits(n5, 1, 256) == [n5 % 256];
    assert Digits.Digits(n4, 2, 256) == [n5 % 256, n4 % 256];
    assert Digits.Digits(n3, 3, 256) == [n5 % 256, n4 % 256, n3 % 256];
    assert Digits.Digits(n2, 4, 256) == [n5 % 256, n4 % 256, n3 % 256, n2 % 256];
    assert Digits.Digits(n1, 5, 256) == [n5 % 256, n4 % 256, n3 % 256, n2 % 256, n1 % 256];
  }

  /** Different counters give different identifiers, and none of them is zero. */
  lemma GeneratedIdsDiffer(prefix: seq<byte>, m: nat, n: nat)
    requires |prefix| == 10 && 1 <= m < EXHAUSTED && 1 <= n < EXHAUSTED
    ensures IdFor(prefix, m) == IdFor(prefix, n) <==> m == n
    ensures IdFor(prefix, n) != seq(16, i => 0)
  {
    Powers();
    ValueOfDigits(m, 6, 256);
    ValueOfDigits(n, 6, 256);
    if IdFor(prefix, m) == IdFor(prefix, n) {
      assert IdFor(prefix, m)[10..] == Digits.Digits(m, 6, 256);
      assert IdFor(prefix, n)[10..] == Digits.Digits(n, 6, 256);
    }
    var tail := Digits.Digits(n, 6, 256);
    if IdFor(prefix, n) == seq(16, i => 0) {
      forall i | 0 <= i < 6 ensures tail[i] == 0 { assert tail[i] == IdFor(prefix, n)[10 + i]; }
      ZeroValue(tail, 256);
    }
  }

  lemma {:induction false} ZeroValue(ds: seq<nat>, b: nat)
    requires forall i :: 0 <= i < |ds| ==> ds[i] == 0
    ensures Value(ds, b) == 0
  {
    if ds != [] { ZeroValue(ds[..|ds| - 1], b); }
  }
}
