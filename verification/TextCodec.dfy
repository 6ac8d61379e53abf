/** Base16 text (section 8 of RFC 4648) of checksums and identifiers, and the keyset
    cursor of the retention scan. */
module TextCodec {
  import opened Common
  import opened IdCodec

  const HEX: string := "0123456789abcdef"

  // ---- Base16 ----

  function HexDigit(c: char): Option<nat>
  {
    if '0' <= c <= '9' then Some(c as nat - '0' as nat)
    else if 'a' <= c <= 'f' then Some(c as nat - 'a' as nat + 10)
    else if 'A' <= c <= 'F' then Some(c as nat - 'A' as nat + 10)
    else None
  }

  function HexText(bytes: seq<byte>): string
  {
    if bytes == [] then ""
    else HexText(bytes[..|bytes| - 1]) + [HEX[bytes[|bytes| - 1] / 16], HEX[bytes[|bytes| - 1] % 16]]
  }

  /** hex.DecodeString: an even number of digits of either case. */
  function Unhex(text: string): Option<seq<byte>>
    decreases |text|
  {
    if text == "" then Some([])
    else if |text| == 1 then None
    else
      var n := |text|;
      var init, hi, lo := Unhex(text[..n - 2]), HexDigit(text[n - 2]), HexDigit(text[n - 1]);
      if init.Some? && hi.Some? && lo.Some? then
        HexDigitBelow(text[n - 2]);
        HexDigitBelow(text[n - 1]);
        Some(init.value + [hi.value * 16 + lo.value])
      else None
  }

  lemma HexDigitBelow(c: char)
    ensures HexDigit(c).Some? ==> HexDigit(c).value < 16
  {
  }

  lemma HexDigitOfHex(d: nat)
    requires d < 16
    ensures HexDigit(HEX[d]) == Some(d) && HEX[d] != ':'
  {
  }

  lemma {:induction false} UnhexHex(bytes: seq<byte>)
    ensures Unhex(HexText(bytes)) == Some(bytes)
    ensures |HexText(bytes)| == 2 * |bytes|
  {
    if bytes != [] {
      var init, b := bytes[..|bytes| - 1], bytes[|bytes| - 1];
      UnhexHex(init);
      HexDigitOfHex(b / 16);
      HexDigitOfHex(b % 16);
      var text := HexText(bytes);
      assert text[..|text| - 2] == HexText(init);
      assert bytes == init + [b];
    }
  }

  type Checksum = s: seq<byte> | |s| == 32 witness seq(32, i => 0)

  /** checksumText: two digits per byte, left to right. */
  method ChecksumText(sum: Checksum) returns (text: string)
    ensures text == HexText(sum)
  {
    text := "";
    for i := 0 to 32
      invariant text == HexText(sum[..i])
    {
      assert sum[..i + 1][..i] == sum[..i];
      text := text + [HEX[sum[i] / 16], HEX[sum[i] % 16]];
    }
    assert sum[..32] == sum;
  }

  // ---- Decimal ----

  function NatText(n: nat): string
  {
    (if n < 10 then "" else NatText(n / 10)) + [HEX[n % 10]]
  }

  function ParseNat(text: string): Option<nat>
  {
    if text == "" then None
    else
      var n := |text| - 1;
      var c := text[n];
      if !('0' <= c <= '9') then None
      else if n == 0 then Some(c as nat - '0' as nat)
      else
        var init := ParseNat(text[..n]);
        if init.Some? then Some(init.value * 10 + (c as nat - '0' as nat)) else None
  }

  ghost predicate NoColon(text: string)
  {
    forall i :: 0 <= i < |text| ==> text[i] != ':'
  }

  lemma DecimalDigit(d: nat)
    requires d < 10
    ensures '0' <= HEX[d] <= '9' && HEX[d] as nat - '0' as nat == d
  {
  }

  lemma {:induction false} ParseNatText(n: nat)
    ensures NatText(n) != "" && ParseNat(NatText(n)) == Some(n)
  {
    DecimalDigit(n % 10);
    var text := NatText(n);
    if n >= 10 {
      ParseNatText(n / 10);
      assert text[..|text| - 1] == NatText(n / 10);
    }
  }

  lemma {:induction false} NatTextDigits(n: nat)
    ensures forall i :: 0 <= i < |NatText(n)| ==> '0' <= NatText(n)[i] <= '9'
  {
    DecimalDigit(n % 10);
    if n >= 10 { NatTextDigits(n / 10); }
  }

  const MIN64: int := -0x8000_0000_0000_0000
  const MAX64: int := 0x7fff_ffff_ffff_ffff

  function IntText(n: int): string
  {
    if n < 0 then "-" + NatText(-n) else NatText(n)
  }

  function Fit64(negative: bool, n: Option<nat>): Option<int>
  {
    if n.None? then None
    else
      var m: int := n.value;
      var v := if negative then -m else m;
      if MIN64 <= v <= MAX64 then Some(v) else None
  }

  /** strconv.ParseInt(text, 10, 64) */
  function ParseInt64(text: string): Option<int>
  {
    if text != "" && text[0] == '-' then Fit64(true, ParseNat(text[1..]))
    else if text != "" && text[0] == '+' then Fit64(false, ParseNat(text[1..]))
    else Fit64(false, ParseNat(text))
  }

  lemma ParseSigned(digits: string)
    requires digits != "" && forall i :: 0 <= i < |digits| ==> '0' <= digits[i] <= '9'
    ensures ParseInt64("-" + digits) == Fit64(true, ParseNat(digits)) && NoColon("-" + digits)
    ensures ParseInt64(digits) == Fit64(false, ParseNat(digits)) && NoColon(digits)
  {
  }

  lemma ParseIntText(n: int)
    requires MIN64 <= n <= MAX64
    ensures ParseInt64(IntText(n)) == Some(n) && NoColon(IntText(n))
  {
    var m := if n < 0 then -n else n;
    ParseNatText(m);
    NatTextDigits(m);
    ParseSigned(NatText(m));
  }

  // ---- The cursor ----

  datatype Cursor = Cursor(time: int, id: seq<byte>)

  function CursorText(c: Cursor): string
  {
    IntText(c.time) + ":" + HexText(c.id)
  }

  /** strings.Cut: the index of the first separator. */
  function IndexOf(text: string, c: char): Option<nat>
  {
    if text == "" then None
    else if text[0] == c then Some(0)
    else
      var rest := IndexOf(text[1..], c);
      if rest.Some? then Some(rest.value + 1) else None
  }

  lemma {:induction false} IndexOfFound(text: string, c: char)
    ensures var i := IndexOf(text, c);
            if i.Some? then i.value < |text| && text[i.value] == c && forall j :: 0 <= j < i.value ==> text[j] != c
            else forall j :: 0 <= j < |text| ==> text[j] != c
  {
    if text != "" { IndexOfFound(text[1..], c); }
  }

  function ParseCursor(text: string): Result<Cursor>
  {
    IndexOfFound(text, ':');
    var i := IndexOf(text, ':');
    if i.None? then Err("invalid retention cursor")
    else
      var time, id := ParseInt64(text[..i.value]), Unhex(text[i.value + 1..]);
      if time.None? || id.None? then Err("invalid retention cursor") else Ok(Cursor(time.value, id.value))
  }

  lemma ParseJoined(time: string, id: string)
    requires NoColon(time)
    ensures ParseCursor(time + ":" + id)
         == if ParseInt64(time).None? || Unhex(id).None? then Err("invalid retention cursor")
            else Ok(Cursor(ParseInt64(time).value, Unhex(id).value))
  {
    var text := time + ":" + id;
    var n := |time|;
    IndexOfFound(text, ':');
    assert text[n] == ':' && forall j :: 0 <= j < n ==> text[j] == time[j];
    assert IndexOf(text, ':') == Some(n);
    assert text[..n] == time && text[n + 1..] == id;
  }

  /** A printed cursor parses back to the position it was printed for. */
  lemma CursorRoundTrip(c: Cursor)
    requires MIN64 <= c.time <= MAX64
    ensures ParseCursor(CursorText(c)) == Ok(c)
  {
    ParseIntText(c.time);
    UnhexHex(c.id);
    ParseJoined(IntText(c.time), HexText(c.id));
  }
}
