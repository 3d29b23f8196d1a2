/** The standard base64 alphabet with padding, section 4 of RFC 4648, and strict
    decoding, section 3.5: encoding as the Go library does it, and its strict decoder,
    which still passes over carriage returns and line feeds. */
module Base64 {
  import opened Common

  const PAD: Byte := 61
  const LINE_FEED: Byte := 10
  const CARRIAGE_RETURN: Byte := 13

  type Digit = d: int | 0 <= d < 64

  /** A-Z, a-z, 0-9, plus and slash. */
  function Symbol(d: Digit): Byte {
    if d < 26 then 65 + d
    else if d < 52 then 97 + d - 26
    else if d < 62 then 48 + d - 52
    else if d == 62 then 43
    else 47
  }

  function Value(b: Byte): Option<Digit> {
    if 65 <= b <= 90 then Some(b - 65)
    else if 97 <= b <= 122 then Some(b - 97 + 26)
    else if 48 <= b <= 57 then Some(b - 48 + 52)
    else if b == 43 then Some(62)
    else if b == 47 then Some(63)
    else None
  }

  lemma SymbolValue(d: Digit)
    ensures Value(Symbol(d)) == Some(d) && Symbol(d) !in {PAD, LINE_FEED, CARRIAGE_RETURN}
  {}

  lemma ValueSymbol(b: Byte)
    ensures Value(b).Some? ==> Symbol(Value(b).value) == b
  {}

  function EncodedLen(size: nat): nat {
    (size + 2) / 3 * 4
  }

  datatype Digits = Digits(d0: Digit, d1: Digit, d2: Digit, d3: Digit)

  datatype Octets = Octets(b0: Byte, b1: Byte, b2: Byte)

  /** Three bytes as four digits of six bits. */
  function Split(o: Octets): Digits {
    Digits(o.b0 / 4, o.b0 % 4 * 16 + o.b1 / 16, o.b1 % 16 * 4 + o.b2 / 64, o.b2 % 64)
  }

  function Join(d: Digits): Octets {
    Octets(d.d0 * 4 + d.d1 / 16, d.d1 % 16 * 16 + d.d2 / 4, d.d2 % 4 * 64 + d.d3)
  }

  function Encode(data: Bytes): Bytes {
    if |data| == 0 then []
    else if |data| == 1 then
      var d := Split(Octets(data[0], 0, 0));
      [Symbol(d.d0), Symbol(d.d1), PAD, PAD]
    else if |data| == 2 then
      var d := Split(Octets(data[0], data[1], 0));
      [Symbol(d.d0), Symbol(d.d1), Symbol(d.d2), PAD]
    else
      var d := Split(Octets(data[0], data[1], data[2]));
      [Symbol(d.d0), Symbol(d.d1), Symbol(d.d2), Symbol(d.d3)] + Encode(data[3..])
  }

  /** Groups of four symbols; padding only at the very end and over zero bits only. */
  function DecodeQuanta(text: Bytes): Option<Bytes> {
    if |text| == 0 then Some([])
    else if |text| < 4 || Value(text[0]).None? || Value(text[1]).None? then None
    else if text[2] == PAD then
      var o := Join(Digits(Value(text[0]).value, Value(text[1]).value, 0, 0));
      if text[3] == PAD && |text| == 4 && o.b1 == o.b2 == 0 then Some([o.b0]) else None
    else if Value(text[2]).None? then None
    else if text[3] == PAD then
      var o := Join(Digits(Value(text[0]).value, Value(text[1]).value, Value(text[2]).value, 0));
      if |text| == 4 && o.b2 == 0 then Some([o.b0, o.b1]) else None
    else if Value(text[3]).None? then None
    else
      var o := Join(Digits(Value(text[0]).value, Value(text[1]).value, Value(text[2]).value, Value(text[3]).value));
      var rest := DecodeQuanta(text[4..]);
      if rest.None? then None else Some([o.b0, o.b1, o.b2] + rest.value)
  }

  predicate IsNewline(b: Byte) {
    b == LINE_FEED || b == CARRIAGE_RETURN
  }

  function SkipNewlines(text: Bytes): Bytes {
    if text == [] then []
    else if IsNewline(text[0]) then SkipNewlines(text[1..])
    else [text[0]] + SkipNewlines(text[1..])
  }

  function StrictDecode(text: Bytes): Option<Bytes> {
    DecodeQuanta(SkipNewlines(text))
  }

  // ----------------------------------------------------------------- properties

  lemma {:induction false} EncodeLength(data: Bytes)
    ensures |Encode(data)| == EncodedLen(|data|)
  {
    if |data| > 2 {
      EncodeLength(data[3..]);
    }
  }

  lemma {:induction false} EncodeHasNoNewlines(data: Bytes)
    ensures forall i :: 0 <= i < |Encode(data)| ==> !IsNewline(Encode(data)[i])
  {
    forall d: Digit ensures !IsNewline(Symbol(d)) {}
    hide Symbol;
    if |data| > 2 {
      EncodeHasNoNewlines(data[3..]);
    }
  }

  lemma {:induction false} SkipShrinks(text: Bytes)
    ensures |SkipNewlines(text)| <= |text|
    ensures |SkipNewlines(text)| == |text| <==> forall i :: 0 <= i < |text| ==> !IsNewline(text[i])
    ensures |SkipNewlines(text)| == |text| ==> SkipNewlines(text) == text
  {
    if text != [] {
      SkipShrinks(text[1..]);
      assert forall i :: 1 <= i < |text| ==> text[1..][i - 1] == text[i];
    }
  }

  lemma JoinSplit(o: Octets)
    ensures Join(Split(o)) == o
    ensures o.b2 == 0 ==> Split(o).d3 == 0
    ensures o.b1 == o.b2 == 0 ==> Split(o).d2 == 0
  {}

  lemma SplitJoin(d: Digits)
    ensures Split(Join(d)) == d
  {
    var o := Join(d);
    High(d.d0, d.d1);
    Middle(d.d1, d.d2);
    Low(d.d2, d.d3);
    assert o.b0 / 4 == d.d0 && o.b0 % 4 == d.d1 / 16;
    assert o.b1 / 16 == d.d1 % 16 && o.b1 % 16 == d.d2 / 4;
    assert o.b2 / 64 == d.d2 % 4 && o.b2 % 64 == d.d3;
  }

  lemma High(d0: Digit, d1: Digit)
    ensures (d0 * 4 + d1 / 16) / 4 == d0 && (d0 * 4 + d1 / 16) % 4 == d1 / 16
    ensures d1 / 16 * 16 + d1 % 16 == d1
  {}

  lemma Middle(d1: Digit, d2: Digit)
    ensures (d1 % 16 * 16 + d2 / 4) / 16 == d1 % 16 && (d1 % 16 * 16 + d2 / 4) % 16 == d2 / 4
    ensures d2 / 4 * 4 + d2 % 4 == d2
  {}

  lemma Low(d2: Digit, d3: Digit)
    ensures (d2 % 4 * 64 + d3) / 64 == d2 % 4 && (d2 % 4 * 64 + d3) % 64 == d3
  {}

  lemma DecodeOne(a: Byte)
    ensures DecodeQuanta(Encode([a])) == Some([a])
  {
    var d := Split(Octets(a, 0, 0));
    JoinSplit(Octets(a, 0, 0));
    SymbolValue(d.d0);
    SymbolValue(d.d1);
    hide Symbol, Value, Split, Join;
    assert Encode([a]) == [Symbol(d.d0), Symbol(d.d1), PAD, PAD];
  }

  lemma DecodeTwo(a: Byte, b: Byte)
    ensures DecodeQuanta(Encode([a, b])) == Some([a, b])
  {
    var d := Split(Octets(a, b, 0));
    JoinSplit(Octets(a, b, 0));
    SymbolValue(d.d0);
    SymbolValue(d.d1);
    SymbolValue(d.d2);
    hide Symbol, Value, Split, Join;
    assert Encode([a, b]) == [Symbol(d.d0), Symbol(d.d1), Symbol(d.d2), PAD];
  }

  lemma DecodeGroup(d: Digits, rest: Bytes)
    requires DecodeQuanta(rest).Some?
    ensures
      var o := Join(d);
      DecodeQuanta([Symbol(d.d0), Symbol(d.d1), Symbol(d.d2), Symbol(d.d3)] + rest) ==
        Some([o.b0, o.b1, o.b2] + DecodeQuanta(rest).value)
  {
    var text := [Symbol(d.d0), Symbol(d.d1), Symbol(d.d2), Symbol(d.d3)] + rest;
    assert text[4..] == rest;
    SymbolValue(d.d0);
    SymbolValue(d.d1);
    SymbolValue(d.d2);
    SymbolValue(d.d3);
    hide Symbol, Value, Split, Join;
  }

  /** Bytes survive encoding and decoding. */
  lemma {:induction false} DecodeEncode(data: Bytes)
    ensures DecodeQuanta(Encode(data)) == Some(data)
  {
    hide Symbol, Value, Split, Join, DecodeQuanta;
    if |data| == 0 {
      EmptyDecodes();
    } else if |data| == 1 {
      DecodeOne(data[0]);
      assert data == [data[0]];
    } else if |data| == 2 {
      DecodeTwo(data[0], data[1]);
      assert data == [data[0], data[1]];
    } else {
      var o := Octets(data[0], data[1], data[2]);
      DecodeEncode(data[3..]);
      DecodeGroup(Split(o), Encode(data[3..]));
      JoinSplit(o);
      assert data == [data[0], data[1], data[2]] + data[3..];
    }
  }

  lemma EmptyDecodes()
    ensures DecodeQuanta([]) == Some([])
  {}

  /** No two texts of whole quanta decode to the same bytes: whatever the strict decoder
      accepts is what encoding produces. */
  lemma {:induction false} EncodeDecode(text: Bytes)
    ensures DecodeQuanta(text).Some? ==> Encode(DecodeQuanta(text).value) == text
  {
    if DecodeQuanta(text).Some? && text != [] {
      if text[2] == PAD || text[3] == PAD {
        EncodePadded(text);
      } else {
        var d := FirstDigits(text);
        SplitJoin(d);
        EncodeDecode(text[4..]);
        hide Symbol, Value, Split, Join;
        var o := Join(d);
        EncodeGroup(o, DecodeQuanta(text[4..]).value);
        assert text == [text[0], text[1], text[2], text[3]] + text[4..];
      }
    }
  }

  lemma EncodePadded(text: Bytes)
    requires |text| >= 4 && (text[2] == PAD || text[3] == PAD) && DecodeQuanta(text).Some?
    ensures Encode(DecodeQuanta(text).value) == text
  {
    var d := FirstDigits(text);
    SplitJoin(d);
    hide Symbol, Value, Split, Join;
    var o := Join(d);
    if text[2] == PAD {
      assert DecodeQuanta(text).value == [o.b0];
      assert text == [text[0], text[1], PAD, PAD];
    } else {
      assert DecodeQuanta(text).value == [o.b0, o.b1];
      assert text == [text[0], text[1], text[2], PAD];
    }
  }

  lemma EncodeGroup(o: Octets, rest: Bytes)
    ensures
      var d := Split(o);
      Encode([o.b0, o.b1, o.b2] + rest) == [Symbol(d.d0), Symbol(d.d1), Symbol(d.d2), Symbol(d.d3)] + Encode(rest)
  {
    hide Symbol, Split;
    assert ([o.b0, o.b1, o.b2] + rest)[3..] == rest;
  }

  /** The digits of the first group, padding counting as zero. */
  lemma FirstDigits(text: Bytes) returns (d: Digits)
    requires text != [] && DecodeQuanta(text).Some?
    ensures |text| >= 4
    ensures Value(text[0]) == Some(d.d0) && Symbol(d.d0) == text[0]
    ensures Value(text[1]) == Some(d.d1) && Symbol(d.d1) == text[1]
    ensures if text[2] == PAD then d.d2 == 0 else Value(text[2]) == Some(d.d2) && Symbol(d.d2) == text[2]
    ensures if text[3] == PAD then d.d3 == 0 else Value(text[3]) == Some(d.d3) && Symbol(d.d3) == text[3]
  {
    ValueSymbol(text[0]);
    ValueSymbol(text[1]);
    ValueSymbol(text[2]);
    ValueSymbol(text[3]);
    hide Symbol, Value, Split, Join;
    d := Digits(Value(text[0]).value, Value(text[1]).value,
                if text[2] == PAD then 0 else Value(text[2]).value,
                if text[3] == PAD then 0 else Value(text[3]).value);
  }

  /** With its newlines the strict decoder accepts more than one text for the same bytes;
      the one of the encoded length is the canonical one. */
  lemma StrictDecodeIsCanonical(text: Bytes, data: Bytes)
    ensures StrictDecode(text) == Some(data) && |text| == EncodedLen(|data|) <==> text == Encode(data)
  {
    EncodeLength(data);
    EncodeHasNoNewlines(data);
    SkipShrinks(text);
    if StrictDecode(text) == Some(data) && |text| == EncodedLen(|data|) {
      EncodeDecode(SkipNewlines(text));
    }
    if text == Encode(data) {
      DecodeEncode(data);
    }
  }

  /** The slack that the length and re-encoding checks remove: a line feed anywhere. */
  lemma NewlinesAreSkipped(data: Bytes, k: nat)
    requires k <= |Encode(data)|
    ensures StrictDecode(Encode(data)[..k] + [LINE_FEED] + Encode(data)[k..]) == Some(data)
  {
    EncodeHasNoNewlines(data);
    DecodeEncode(data);
    hide Encode, DecodeQuanta;
    var text := Encode(data);
    SkipOne(text[..k], text[k..]);
    assert text[..k] + text[k..] == text;
  }

  lemma {:induction false} SkipOne(before: Bytes, after: Bytes)
    requires forall i :: 0 <= i < |before| ==> !IsNewline(before[i])
    requires forall i :: 0 <= i < |after| ==> !IsNewline(after[i])
    ensures SkipNewlines(before + [LINE_FEED] + after) == before + after
  {
    var text := before + [LINE_FEED] + after;
    if before == [] {
      assert text[1..] == after;
      SkipShrinks(after);
      assert before + after == after;
    } else {
      SkipOne(before[1..], after);
      assert text[1..] == before[1..] + [LINE_FEED] + after;
      assert before + after == [before[0]] + (before[1..] + after);
    }
  }
}
