/** The authentication transcript: canonical identifiers, canonical base64 fields, and
    the length-prefixed bytes that both sides sign and verify. */
module AgentAuth {
  import opened Common
  import Base64

  datatype Error = Protocol

  const DASH: Byte := 45
  const NONCE_SIZE := 32
  const VERSION: Bytes := Ascii("THESIS-RAT-AGENT-AUTH-V1")

  /** The bytes of an ASCII text. */
  function Ascii(s: string): Bytes {
    seq(|s|, i requires 0 <= i < |s| => (s[i] as int) % 256)
  }

  predicate IsHex(b: Byte) {
    48 <= b <= 57 || 65 <= b <= 70 || 97 <= b <= 102
  }

  function Lower(b: Byte): Byte {
    if 65 <= b <= 90 then b + 32 else b
  }

  function LowerAll(s: Bytes): Bytes {
    seq(|s|, i requires 0 <= i < |s| => Lower(s[i]))
  }

  function WithoutDashes(s: Bytes): Bytes {
    if s == [] then []
    else if s[0] == DASH then WithoutDashes(s[1..])
    else [s[0]] + WithoutDashes(s[1..])
  }

  predicate AllHex(s: Bytes) {
    forall i :: 0 <= i < |s| ==> IsHex(s[i])
  }

  /** Dashes in their places, 32 bytes once all dashes are gone, and those hexadecimal. */
  function CanonicalID(id: Bytes): Result<Bytes, Error> {
    if |id| != 36 || id[8] != DASH || id[13] != DASH || id[18] != DASH || id[23] != DASH then Err(Protocol)
    else
      var raw := WithoutDashes(id);
      if |raw| != 32 || !AllHex(raw) then Err(Protocol) else Ok(LowerAll(id))
  }

  function Decode(value: Bytes, size: nat): Result<Bytes, Error> {
    if |value| != Base64.EncodedLen(size) then Err(Protocol)
    else
      var data := Base64.StrictDecode(value);
      if data.None? || |data.value| != size || Base64.Encode(data.value) != value then Err(Protocol)
      else Ok(data.value)
  }

  /** Thirty-two bits, most significant byte first. */
  function BigEndian(n: nat): Bytes {
    var word := n % 0x1_0000_0000;
    var high, low := word / 0x1_0000, word % 0x1_0000;
    [high / 0x100, high % 0x100, low / 0x100, low % 0x100]
  }

  function FromBigEndian(b: Bytes): nat
    requires |b| == 4
  {
    var b0: int, b1: int, b2: int, b3: int := b[0], b[1], b[2], b[3];
    (b0 * 0x100 + b1) * 0x1_0000 + (b2 * 0x100 + b3)
  }

  function Frame(fields: seq<Bytes>): Bytes {
    if fields == [] then []
    else Frame(fields[..|fields| - 1]) + BigEndian(|fields[|fields| - 1]|) + fields[|fields| - 1]
  }

  function Fields(id: Bytes, challenge: Bytes, client: Bytes, server: Bytes): Result<seq<Bytes>, Error> {
    var canonical := CanonicalID(id);
    if canonical.Err? || canonical.value != id then Err(Protocol)
    else
      var c, cn, sn := Decode(challenge, NONCE_SIZE), Decode(client, NONCE_SIZE), Decode(server, NONCE_SIZE);
      if c.Err? || cn.Err? || sn.Err? then Err(Protocol)
      else Ok([VERSION, id, c.value, cn.value, sn.value])
  }

  /** What is signed. */
  function Signed(id: Bytes, challenge: Bytes, client: Bytes, server: Bytes): Result<Bytes, Error> {
    var fields := Fields(id, challenge, client, server);
    if fields.Err? then Err(Protocol) else Ok(Frame(fields.value))
  }

  method Transcript(id: Bytes, challenge: Bytes, client: Bytes, server: Bytes) returns (r: Result<Bytes, Error>)
    ensures r == Signed(id, challenge, client, server)
  {
    hide CanonicalID, Decode, BigEndian;
    var canonical := CanonicalID(id);
    if canonical.Err? || canonical.value != id {
      return Err(Protocol);
    }
    var c := Decode(challenge, NONCE_SIZE);
    if c.Err? {
      return Err(Protocol);
    }
    var cn := Decode(client, NONCE_SIZE);
    if cn.Err? {
      return Err(Protocol);
    }
    var sn := Decode(server, NONCE_SIZE);
    if sn.Err? {
      return Err(Protocol);
    }
    var fields := [VERSION, id, c.value, cn.value, sn.value];
    var out: Bytes := [];
    for i := 0 to |fields|
      invariant out == Frame(fields[..i])
    {
      assert fields[..i + 1][..i] == fields[..i];
      out := out + BigEndian(|fields[i]|) + fields[i];
    }
    assert fields[..|fields|] == fields;
    return Ok(out);
  }

  // ---------------------------------------------------------- base64 fields

  /** Exactly the canonical encodings of byte strings of the given size are accepted, and
      decoding gives those bytes back. */
  lemma DecodeExactly(value: Bytes, size: nat, data: Bytes)
    ensures Decode(value, size) == Ok(data) <==> |data| == size && value == Base64.Encode(data)
  {
    hide Base64.Encode, Base64.StrictDecode, Base64.EncodedLen;
    Base64.StrictDecodeIsCanonical(value, data);
    Base64.EncodeLength(data);
  }

  /** The explicit comparison with the re-encoded bytes never rejects anything the length
      and the strict decoder let through. */
  lemma ReencodingNeverRejects(value: Bytes, size: nat)
    requires |value| == Base64.EncodedLen(size)
    requires Base64.StrictDecode(value).Some? && |Base64.StrictDecode(value).value| == size
    ensures Decode(value, size).Ok?
  {
    hide Base64.Encode, Base64.StrictDecode, Base64.EncodedLen;
    Base64.StrictDecodeIsCanonical(value, Base64.StrictDecode(value).value);
  }

  // ------------------------------------------------------------ identifiers

  /** Five groups of hexadecimal digits, 8-4-4-4-12. */
  predicate IsUuid(id: Bytes) {
    |id| == 36 &&
    forall i :: 0 <= i < 36 ==> if i in {8, 13, 18, 23} then id[i] == DASH else IsHex(id[i])
  }

  lemma {:induction false} WithoutDashesConcat(a: Bytes, b: Bytes)
    ensures WithoutDashes(a + b) == WithoutDashes(a) + WithoutDashes(b)
  {
    if a == [] {
      assert a + b == b && WithoutDashes(a) == [];
      hide WithoutDashes;
      assert [] + WithoutDashes(b) == WithoutDashes(b);
    } else {
      hide WithoutDashes;
      WithoutDashesConcat(a[1..], b);
      Unfold(a + b);
      Unfold(a);
      assert (a + b)[1..] == a[1..] + b;
      Associative(if a[0] == DASH then [] else [a[0]], WithoutDashes(a[1..]), WithoutDashes(b));
    }
  }

  lemma Associative(a: Bytes, b: Bytes, c: Bytes)
    ensures a + (b + c) == (a + b) + c
  {}

  lemma Unfold(s: Bytes)
    requires s != []
    ensures WithoutDashes(s) == (if s[0] == DASH then [] else [s[0]]) + WithoutDashes(s[1..])
  {}

  lemma {:induction false} WithoutDashesShrinks(s: Bytes)
    ensures |WithoutDashes(s)| <= |s|
    ensures |WithoutDashes(s)| == |s| ==> WithoutDashes(s) == s
    ensures (forall i :: 0 <= i < |s| ==> s[i] != DASH) ==> WithoutDashes(s) == s
  {
    if s != [] {
      WithoutDashesShrinks(s[1..]);
    }
  }

  /** A piece of an identifier up to its dash. */
  lemma Group(id: Bytes, from: nat, to: nat)
    requires from <= to < |id| && id[to] == DASH
    ensures WithoutDashes(id[from..]) == WithoutDashes(id[from..to]) + WithoutDashes(id[to + 1..])
    ensures |WithoutDashes(id[from..to])| <= to - from
  {
    assert id[from..] == id[from..to] + id[to..];
    WithoutDashesConcat(id[from..to], id[to..]);
    WithoutDashesShrinks(id[from..to]);
  }

  /** An identifier is accepted exactly when it is a UUID in text form. */
  lemma CanonicalIDExactly(id: Bytes)
    ensures CanonicalID(id).Ok? <==> IsUuid(id)
  {
    if |id| == 36 && id[8] == DASH && id[13] == DASH && id[18] == DASH && id[23] == DASH {
      Group(id, 0, 8);
      Group(id, 9, 13);
      Group(id, 14, 18);
      Group(id, 19, 23);
      WithoutDashesShrinks(id[24..]);
      assert id[0..] == id;
      Pieces(id);
    }
  }

  lemma Pieces(id: Bytes)
    requires |id| == 36 && id[8] == DASH && id[13] == DASH && id[18] == DASH && id[23] == DASH
    requires WithoutDashes(id) == WithoutDashes(id[0..8]) + (WithoutDashes(id[9..13]) +
      (WithoutDashes(id[14..18]) + (WithoutDashes(id[19..23]) + WithoutDashes(id[24..]))))
    ensures |WithoutDashes(id)| == 32 && AllHex(WithoutDashes(id)) <==> IsUuid(id)
  {
    var pieces := id[0..8] + id[9..13] + id[14..18] + id[19..23] + id[24..];
    if |WithoutDashes(id)| == 32 || IsUuid(id) {
      WithoutDashesShrinks(id[0..8]);
      WithoutDashesShrinks(id[9..13]);
      WithoutDashesShrinks(id[14..18]);
      WithoutDashesShrinks(id[19..23]);
      WithoutDashesShrinks(id[24..]);
      hide WithoutDashes;
      assert WithoutDashes(id) == pieces;
      PiecesHex(id);
    }
  }

  lemma PiecesHex(id: Bytes)
    requires |id| == 36 && id[8] == DASH && id[13] == DASH && id[18] == DASH && id[23] == DASH
    ensures AllHex(id[0..8] + id[9..13] + id[14..18] + id[19..23] + id[24..]) <==> IsUuid(id)
  {
    var pieces := id[0..8] + id[9..13] + id[14..18] + id[19..23] + id[24..];
    forall i | 0 <= i < 36 && i !in {8, 13, 18, 23}
      ensures id[i] == pieces[if i < 8 then i else if i < 13 then i - 1 else if i < 18 then i - 2
                              else if i < 23 then i - 3 else i - 4]
    {}
  }

  /** Canonical identifiers are fixed points: applying it again changes nothing, and only
      the letter case was changed. */
  lemma CanonicalIDIdempotent(id: Bytes)
    requires CanonicalID(id).Ok?
    ensures
      var canonical := CanonicalID(id).value;
      && CanonicalID(canonical) == Ok(canonical)
      && |canonical| == |id|
      && forall i :: 0 <= i < |id| ==> canonical[i] == Lower(id[i])
  {
    CanonicalIDExactly(id);
    var canonical := CanonicalID(id).value;
    assert IsUuid(canonical);
    CanonicalIDExactly(canonical);
    assert LowerAll(canonical) == canonical;
  }

  lemma CanonicalIsLower(id: Bytes)
    requires IsUuid(id)
    ensures |id| == 36 && CanonicalID(id) == Ok(LowerAll(id))
  {
    CanonicalIDExactly(id);
  }

  /** Two identifiers have the same canonical form exactly when they differ in letter case only. */
  lemma SameCanonicalID(a: Bytes, b: Bytes)
    requires IsUuid(a) && IsUuid(b)
    ensures CanonicalID(a) == CanonicalID(b) <==> forall i :: 0 <= i < 36 ==> Lower(a[i]) == Lower(b[i])
  {
    CanonicalIsLower(a);
    CanonicalIsLower(b);
    hide CanonicalID, IsUuid;
    if LowerAll(a) == LowerAll(b) {
      forall i | 0 <= i < 36 ensures Lower(a[i]) == Lower(b[i]) {
        assert LowerAll(a)[i] == LowerAll(b)[i];
      }
    }
  }

  // -------------------------------------------------------------- transcript

  /** A reader of length-prefixed fields, independent of how they were written. */
  function Parse(data: Bytes): Option<seq<Bytes>> {
    if data == [] then Some([])
    else if |data| < 4 then None
    else
      var n := FromBigEndian(data[..4]);
      if |data| < 4 + n then None
      else
        var rest := Parse(data[4 + n..]);
        if rest.None? then None else Some([data[4..4 + n]] + rest.value)
  }

  lemma BigEndianRoundTrip(n: nat)
    requires n < 0x1_0000_0000
    ensures FromBigEndian(BigEndian(n)) == n
  {}

  lemma ParseFirst(field: Bytes, rest: Bytes)
    requires |field| < 0x1_0000_0000 && Parse(rest).Some?
    ensures Parse(BigEndian(|field|) + field + rest) == Some([field] + Parse(rest).value)
  {
    var data := BigEndian(|field|) + field + rest;
    BigEndianRoundTrip(|field|);
    hide BigEndian, FromBigEndian;
    assert |BigEndian(|field|)| == 4 by {
      BigEndianLength(|field|);
    }
    assert data[..4] == BigEndian(|field|);
    assert data[4..4 + |field|] == field;
    assert data[4 + |field|..] == rest;
  }

  lemma BigEndianLength(n: nat)
    ensures |BigEndian(n)| == 4
  {}

  /** Frames can be read from the front although they are written at the end. */
  lemma {:induction false} FrameFront(fields: seq<Bytes>)
    requires fields != []
    ensures Frame(fields) == BigEndian(|fields[0]|) + fields[0] + Frame(fields[1..])
  {
    hide BigEndian, Frame;
    var n := |fields| - 1;
    FrameNothing();
    FrameLast(fields);
    if n == 0 {
      assert fields[..0] == [] && fields[1..] == [];
      assert [] + BigEndian(|fields[0]|) + fields[0] == BigEndian(|fields[0]|) + fields[0] + [];
    } else {
      FrameFront(fields[..n]);
      FrameLast(fields[1..]);
      assert fields[..n][1..] == fields[1..][..n - 1];
      var first, middle := BigEndian(|fields[0]|) + fields[0], Frame(fields[1..][..n - 1]);
      Associative(first, middle, BigEndian(|fields[n]|));
      Associative(first, middle + BigEndian(|fields[n]|), fields[n]);
    }
  }

  lemma FrameLast(fields: seq<Bytes>)
    requires fields != []
    ensures Frame(fields) ==
      Frame(fields[..|fields| - 1]) + BigEndian(|fields[|fields| - 1]|) + fields[|fields| - 1]
  {}

  /** Every list of fields of representable length is recovered from its frame. */
  lemma {:induction false} ParseFrame(fields: seq<Bytes>)
    requires forall i :: 0 <= i < |fields| ==> |fields[i]| < 0x1_0000_0000
    ensures Parse(Frame(fields)) == Some(fields)
  {
    if fields != [] {
      FrameFront(fields);
      ParseFrame(fields[1..]);
      hide BigEndian, FromBigEndian, Frame;
      ParseFirst(fields[0], Frame(fields[1..]));
      assert fields == [fields[0]] + fields[1..];
    }
  }

  /** The five fields of a successful transcript. */
  lemma SignedFields(id: Bytes, challenge: Bytes, client: Bytes, server: Bytes)
    ensures Fields(id, challenge, client, server).Ok? ==>
      var fields := Fields(id, challenge, client, server).value;
      && |fields| == 5 && fields[0] == VERSION && fields[1] == id
      && |VERSION| == 24 && |id| == 36 && IsUuid(id) && CanonicalID(id) == Ok(id)
      && (forall i :: 2 <= i < 5 ==> |fields[i]| == 32)
      && Base64.Encode(fields[2]) == challenge
      && Base64.Encode(fields[3]) == client
      && Base64.Encode(fields[4]) == server
  {
    if Fields(id, challenge, client, server).Ok? {
      var fields := Fields(id, challenge, client, server).value;
      CanonicalIDExactly(id);
      DecodeExactly(challenge, NONCE_SIZE, fields[2]);
      DecodeExactly(client, NONCE_SIZE, fields[3]);
      DecodeExactly(server, NONCE_SIZE, fields[4]);
    }
  }

  /** A transcript is always 176 bytes, and the reader gets all five fields back. */
  lemma TranscriptReadable(id: Bytes, challenge: Bytes, client: Bytes, server: Bytes)
    ensures Signed(id, challenge, client, server).Ok? ==>
      var out := Signed(id, challenge, client, server).value;
      && Fields(id, challenge, client, server).Ok?
      && |out| == 176
      && Parse(out) == Some(Fields(id, challenge, client, server).value)
  {
    hide Base64.Encode, CanonicalID, IsUuid, Decode, Frame, Parse, Fields;
    if Signed(id, challenge, client, server).Ok? {
      var fields := Fields(id, challenge, client, server).value;
      SignedFields(id, challenge, client, server);
      ParseFrame(fields);
      FiveFieldsLength(fields);
    }
  }

  lemma FiveFieldsLength(fields: seq<Bytes>)
    requires |fields| == 5
    ensures |Frame(fields)| == 20 + |fields[0]| + |fields[1]| + |fields[2]| + |fields[3]| + |fields[4]|
  {
    FrameNothing();
    hide *;
    FrameLength(fields, 5);
    FrameLength(fields, 4);
    FrameLength(fields, 3);
    FrameLength(fields, 2);
    FrameLength(fields, 1);
    assert fields[..5] == fields && fields[..0] == [];
  }

  lemma FrameNothing()
    ensures Frame([]) == []
  {}

  lemma FrameLength(fields: seq<Bytes>, n: nat)
    requires 0 < n <= |fields|
    ensures |Frame(fields[..n])| == |Frame(fields[..n - 1])| + 4 + |fields[n - 1]|
  {
    BigEndianLength(|fields[n - 1]|);
    hide BigEndian;
    assert fields[..n][..n - 1] == fields[..n - 1];
  }

  /** Different inputs are never signed as the same bytes. */
  lemma TranscriptInjective(id: Bytes, challenge: Bytes, client: Bytes, server: Bytes,
                            id': Bytes, challenge': Bytes, client': Bytes, server': Bytes)
    ensures Signed(id, challenge, client, server).Ok? &&
            Signed(id, challenge, client, server) == Signed(id', challenge', client', server') ==>
      id == id' && challenge == challenge' && client == client' && server == server'
  {
    TranscriptReadable(id, challenge, client, server);
    TranscriptReadable(id', challenge', client', server');
    SignedFields(id, challenge, client, server);
    SignedFields(id', challenge', client', server');
    hide *;
  }

  /** A transcript exists exactly for a canonical identifier and three canonical encodings
      of 32 bytes. */
  lemma TranscriptExactly(id: Bytes, challenge: Bytes, client: Bytes, server: Bytes)
    ensures
      Signed(id, challenge, client, server).Ok? <==>
        && IsUuid(id) && LowerAll(id) == id
        && IsNonce(challenge) && IsNonce(client) && IsNonce(server)
  {
    CanonicalIDExactly(id);
    NonceDecodes(challenge);
    NonceDecodes(client);
    NonceDecodes(server);
    hide Decode, IsUuid, IsNonce;
  }

  ghost predicate IsNonce(value: Bytes) {
    exists data: Bytes :: |data| == NONCE_SIZE && value == Base64.Encode(data)
  }

  lemma NonceDecodes(value: Bytes)
    ensures Decode(value, NONCE_SIZE).Ok? <==> IsNonce(value)
  {
    if Decode(value, NONCE_SIZE).Ok? {
      DecodeExactly(value, NONCE_SIZE, Decode(value, NONCE_SIZE).value);
    }
    if IsNonce(value) {
      var data: Bytes :| |data| == NONCE_SIZE && value == Base64.Encode(data);
      DecodeExactly(value, NONCE_SIZE, data);
    }
  }
}
