/** Page cursors: a record of where a page ended, as JSON in unpadded base64url (section 5
    of RFC 4648). JSON itself is abstract. */
module Cursor {

  import opened Wrappers

  type Byte = b: nat | b < 256

  // ------------------------------------------------ base64url

  function Digit(v: nat): char
    requires v < 64
  {
    if v < 26 then 'A' + v as char
    else if v < 52 then 'a' + (v - 26) as char
    else if v < 62 then '0' + (v - 52) as char
    else if v == 62 then '-' else '_'
  }

  /** The value of a digit; 64 stands for none. */
  function Value(c: char): (v: nat)
    ensures v <= 64
  {
    if 'A' <= c <= 'Z' then (c - 'A') as nat
    else if 'a' <= c <= 'z' then (c - 'a') as nat + 26
    else if '0' <= c <= '9' then (c - '0') as nat + 52
    else if c == '-' then 62 else if c == '_' then 63 else 64
  }

  lemma DigitValue(v: nat)
    requires v < 64
    ensures Value(Digit(v)) == v && Digit(v) != '\r' && Digit(v) != '\n'
  {
  }

  /** Three bytes are four six-bit digits; a short last group has one digit more than bytes. */
  function Encode(bytes: seq<Byte>): string {
    if bytes == [] then []
    else if |bytes| == 1 then Group1(bytes[0])
    else if |bytes| == 2 then Group2(bytes[0], bytes[1])
    else Group3(bytes[0], bytes[1], bytes[2]) + Encode(bytes[3..])
  }

  function Group1(b0: Byte): string {
    [Digit(b0 / 4), Digit(b0 % 4 * 16)]
  }

  function Group2(b0: Byte, b1: Byte): string {
    [Digit(b0 / 4), Digit(b0 % 4 * 16 + b1 / 16), Digit(b1 % 16 * 4)]
  }

  function Group3(b0: Byte, b1: Byte, b2: Byte): string {
    [Digit(b0 / 4), Digit(b0 % 4 * 16 + b1 / 16), Digit(b1 % 16 * 4 + b2 / 64), Digit(b2 % 64)]
  }

  /** Line breaks are skipped. */
  function Stripped(s: string): string {
    if s == [] then [] else Unbroken(s[0]) + Stripped(s[1..])
  }

  function Unbroken(c: char): string {
    if c == '\r' || c == '\n' then [] else [c]
  }

  predicate IsDigit(c: char) {
    Value(c) < 64
  }

  function First(s: string): Byte
    requires |s| >= 2 && IsDigit(s[0]) && IsDigit(s[1])
  {
    Value(s[0]) * 4 + Value(s[1]) / 16
  }

  function Second(s: string): Byte
    requires |s| >= 3 && IsDigit(s[2])
  {
    Value(s[1]) % 16 * 16 + Value(s[2]) / 4
  }

  function Third(s: string): Byte
    requires |s| >= 4 && IsDigit(s[3])
  {
    Value(s[2]) % 4 * 64 + Value(s[3])
  }

  /** Digits to bytes; surplus low bits of a short last group are ignored. */
  function DecodeDigits(s: string): Option<seq<Byte>> {
    if s == [] then Some([])
    else if |s| == 1 || !IsDigit(s[0]) || !IsDigit(s[1]) then None
    else if |s| == 2 then Some([First(s)])
    else if !IsDigit(s[2]) then None
    else if |s| == 3 then Some([First(s), Second(s)])
    else if !IsDigit(s[3]) then None
    else
      match DecodeDigits(s[4..])
      case None => None
      case Some(rest) => Some([First(s), Second(s), Third(s)] + rest)
  }

  function Decode(s: string): Option<seq<Byte>> {
    DecodeDigits(Stripped(s))
  }

  lemma {:induction false} NothingStripped(s: string)
    requires forall k :: 0 <= k < |s| ==> s[k] != '\r' && s[k] != '\n'
    ensures Stripped(s) == s
  {
    if s != [] {
      NothingStripped(s[1..]);
    }
  }

  lemma {:induction false} EncodedDigits(bytes: seq<Byte>)
    ensures forall k :: 0 <= k < |Encode(bytes)| ==> Encode(bytes)[k] != '\r' && Encode(bytes)[k] != '\n'
  {
    if |bytes| >= 3 {
      EncodedDigits(bytes[3..]);
    }
  }

  /** Splitting bytes into six-bit digits loses nothing. */
  lemma Recombine(b0: Byte, b1: Byte, b2: Byte)
    ensures var v0, v1, v2, v3 := b0 / 4, b0 % 4 * 16 + b1 / 16, b1 % 16 * 4 + b2 / 64, b2 % 64;
            && v0 < 64 && v1 < 64 && v2 < 64 && v3 < 64
            && v0 * 4 + v1 / 16 == b0 && v1 % 16 * 16 + v2 / 4 == b1 && v2 % 4 * 64 + v3 == b2
  {
  }

  lemma GroupRoundTrip(b0: Byte, b1: Byte, b2: Byte, s: string)
    requires Group3(b0, b1, b2) <= s
    ensures forall k :: 0 <= k < 4 ==> IsDigit(s[k])
    ensures First(s) == b0 && Second(s) == b1 && Third(s) == b2
  {
    Recombine(b0, b1, b2);
    var g := Group3(b0, b1, b2);
    assert s[0] == g[0] && s[1] == g[1] && s[2] == g[2] && s[3] == g[3];
    DigitValue(b0 / 4);
    DigitValue(b0 % 4 * 16 + b1 / 16);
    DigitValue(b1 % 16 * 4 + b2 / 64);
    DigitValue(b2 % 64);
  }

  lemma LastGroup1(b0: Byte)
    ensures DecodeDigits(Group1(b0)) == Some([b0])
  {
    Recombine(b0, 0, 0);
    DigitValue(b0 / 4);
    DigitValue(b0 % 4 * 16);
  }

  lemma LastGroup2(b0: Byte, b1: Byte)
    ensures DecodeDigits(Group2(b0, b1)) == Some([b0, b1])
  {
    Recombine(b0, b1, 0);
    DigitValue(b0 / 4);
    DigitValue(b0 % 4 * 16 + b1 / 16);
    DigitValue(b1 % 16 * 4);
  }

  lemma NextGroup(b0: Byte, b1: Byte, b2: Byte, s: string, rest: seq<Byte>)
    requires DecodeDigits(s) == Some(rest)
    ensures DecodeDigits(Group3(b0, b1, b2) + s) == Some([b0, b1, b2] + rest)
  {
    var all := Group3(b0, b1, b2) + s;
    GroupRoundTrip(b0, b1, b2, all);
    assert all[4..] == s;
  }

  lemma {:induction false} DigitsRoundTrip(bytes: seq<Byte>)
    ensures DecodeDigits(Encode(bytes)) == Some(bytes)
  {
    if |bytes| == 1 {
      LastGroup1(bytes[0]);
      assert bytes == [bytes[0]];
    } else if |bytes| == 2 {
      LastGroup2(bytes[0], bytes[1]);
      assert bytes == [bytes[0], bytes[1]];
    } else if |bytes| >= 3 {
      DigitsRoundTrip(bytes[3..]);
      NextGroup(bytes[0], bytes[1], bytes[2], Encode(bytes[3..]), bytes[3..]);
      assert bytes == [bytes[0], bytes[1], bytes[2]] + bytes[3..];
    }
  }

  lemma RoundTrip(bytes: seq<Byte>)
    ensures Decode(Encode(bytes)) == Some(bytes)
    ensures bytes != [] ==> Encode(bytes) != []
  {
    EncodedDigits(bytes);
    NothingStripped(Encode(bytes));
    DigitsRoundTrip(bytes);
  }

  // ------------------------------------------------ the format

  /** The alphabet of section 5 of RFC 4648, by code point: upper case, lower case, decimal
      digits, minus, underscore, and no other character is a digit. */
  lemma UrlAlphabet(v: nat, c: char)
    requires v < 64
    ensures Digit(v) as int == if v < 26 then 65 + v else if v < 52 then 71 + v else if v < 62 then v - 4 else if v == 62 then 45 else 95
    ensures Value(c) < 64 <==> 65 <= c as int <= 90 || 97 <= c as int <= 122 || 48 <= c as int <= 57 || c as int == 45 || c as int == 95
  {
  }

  lemma {:induction false} EncodeTail(bytes: seq<Byte>, j: nat)
    requires 3 * j <= |bytes|
    ensures 4 * j <= |Encode(bytes)| && Encode(bytes)[4 * j..] == Encode(bytes[3 * j..])
  {
    if j == 0 {
      assert bytes[0..] == bytes;
    } else {
      var rest := bytes[3..];
      EncodeTail(rest, j - 1);
      assert Encode(bytes) == Group3(bytes[0], bytes[1], bytes[2]) + Encode(rest);
      assert Encode(bytes)[4 * j..] == Encode(rest)[4 * (j - 1)..];
      assert rest[3 * (j - 1)..] == bytes[3 * j..];
    }
  }

  /** Four digits as a 24-bit number. */
  function Quad(s: string): nat
    requires |s| >= 4
  {
    Value(s[0]) * 262144 + Value(s[1]) * 4096 + Value(s[2]) * 64 + Value(s[3])
  }

  /** Bytes as a big-endian number. */
  function Number(high: nat, low: nat): nat {
    high * 256 + low
  }

  lemma GroupNumber(b0: Byte, b1: Byte, b2: Byte, s: string)
    requires Group3(b0, b1, b2) <= s
    ensures Quad(s) == Number(Number(b0, b1), b2)
  {
    Recombine(b0, b1, b2);
    var g := Group3(b0, b1, b2);
    assert s[0] == g[0] && s[1] == g[1] && s[2] == g[2] && s[3] == g[3];
    DigitValue(b0 / 4);
    DigitValue(b0 % 4 * 16 + b1 / 16);
    DigitValue(b1 % 16 * 4 + b2 / 64);
    DigitValue(b2 % 64);
  }

  /** Every three bytes are the big-endian number their four digits spell; what is left over
      is padded with zero bits, one digit more than bytes. */
  lemma EncodesBigEndian(bytes: seq<Byte>, j: nat)
    requires 3 * j < |bytes|
    ensures 4 * j <= |Encode(bytes)|
    ensures var left, tail := |bytes| - 3 * j, Encode(bytes)[4 * j..];
            && (left >= 3 ==> |tail| >= 4 && Quad(tail) == Number(Number(bytes[3 * j], bytes[3 * j + 1]), bytes[3 * j + 2]))
            && (left == 2 ==> |tail| == 3 && Value(tail[0]) * 4096 + Value(tail[1]) * 64 + Value(tail[2]) == 4 * Number(bytes[3 * j], bytes[3 * j + 1]))
            && (left == 1 ==> |tail| == 2 && Value(tail[0]) * 64 + Value(tail[1]) == 16 * Number(0, bytes[3 * j]))
  {
    EncodeTail(bytes, j);
    var rest := bytes[3 * j..];
    if |rest| >= 3 {
      GroupNumber(rest[0], rest[1], rest[2], Encode(rest));
    } else {
      ShortGroups(rest);
    }
  }

  lemma ShortGroups(rest: seq<Byte>)
    requires 1 <= |rest| <= 2
    ensures |Encode(rest)| == |rest| + 1
    ensures |rest| == 2 ==> Value(Encode(rest)[0]) * 4096 + Value(Encode(rest)[1]) * 64 + Value(Encode(rest)[2]) == 4 * Number(rest[0], rest[1])
    ensures |rest| == 1 ==> Value(Encode(rest)[0]) * 64 + Value(Encode(rest)[1]) == 16 * Number(0, rest[0])
  {
    var b0, b1 := rest[0], if |rest| == 2 then rest[1] else 0;
    Recombine(b0, b1, 0);
    DigitValue(b0 / 4);
    DigitValue(b0 % 4 * 16 + b1 / 16);
    DigitValue(b1 % 16 * 4);
  }

  lemma {:induction false} DigitsDecode(s: string)
    ensures DecodeDigits(s).Some? <==> |s| % 4 != 1 && forall k :: 0 <= k < |s| ==> IsDigit(s[k])
  {
    if |s| >= 4 {
      DigitsDecode(s[4..]);
      assert forall k :: 4 <= k < |s| ==> s[k] == s[4..][k - 4];
      if forall k :: 0 <= k < |s[4..]| ==> IsDigit(s[4..][k]) {
        assert forall k :: 4 <= k < |s| ==> IsDigit(s[k]);
      }
    }
  }

  lemma Associate(x: string, y: string, z: string)
    ensures x + y + z == x + (y + z)
  {
  }

  lemma {:induction false} StrippedJoin(a: string, b: string)
    ensures Stripped(a + b) == Stripped(a) + Stripped(b)
  {
    if a == [] {
      assert a + b == b;
    } else {
      StrippedJoin(a[1..], b);
      assert (a + b)[0] == a[0] && (a + b)[1..] == a[1..] + b;
      Associate(Unbroken(a[0]), Stripped(a[1..]), Stripped(b));
    }
  }

  /** What decodes: digits only, line breaks aside, and not one digit left over. */
  lemma DecodesExactly(a: string, b: string)
    requires forall k :: 0 <= k < |a + b| ==> (a + b)[k] != '\r' && (a + b)[k] != '\n'
    ensures Decode(a + b).Some? <==> |a + b| % 4 != 1 && forall k :: 0 <= k < |a + b| ==> IsDigit((a + b)[k])
    ensures Decode(a + ['\n'] + b) == Decode(a + b) && Decode(a + ['\r'] + b) == Decode(a + b)
  {
    NothingStripped(a + b);
    DigitsDecode(a + b);
    StrippedJoin(a, b);
    StrippedJoin(a + ['\n'], b);
    StrippedJoin(a, ['\n']);
    StrippedJoin(a + ['\r'], b);
    StrippedJoin(a, ['\r']);
    assert Stripped(['\n']) == [] && Stripped(['\r']) == [];
    assert Stripped(a) + [] == Stripped(a);
  }

  // ------------------------------------------------ cursors

  /** The time that means no time was given. */
  const ZERO_TIME: int := 0

  datatype ObjectCursor = ObjectCursor(version: int, ns: string, changedSince: string, updatedAt: int, id: int)

  datatype Json = Json(marshal: ObjectCursor -> seq<Byte>, unmarshal: seq<Byte> -> Option<ObjectCursor>)

  /** What is assumed of JSON: it reads back what it wrote, and never writes nothing. */
  ghost predicate Faithful(json: Json) {
    forall c :: json.marshal(c) != [] && json.unmarshal(json.marshal(c)) == Some(c)
  }

  function EncodeObjectCursor(json: Json, c: ObjectCursor): string {
    Encode(json.marshal(c))
  }

  datatype Decoded = NoCursor | Resume(cursor: ObjectCursor) | Malformed | Mismatch

  function DecodeObjectCursor(json: Json, raw: string, ns: string, changedSince: string): (d: Decoded)
    ensures d.Resume? ==> d.cursor.version == 1 && d.cursor.id >= 1 && d.cursor.updatedAt != ZERO_TIME
    ensures d.Resume? ==> d.cursor.ns == ns && d.cursor.changedSince == changedSince
  {
    if raw == "" then NoCursor
    else
      match Decode(raw)
      case None => Malformed
      case Some(bytes) =>
        match json.unmarshal(bytes)
        case None => Malformed
        case Some(c) =>
          if c.version != 1 || c.id < 1 || c.updatedAt == ZERO_TIME then Malformed
          else if c.ns != ns || c.changedSince != changedSince then Mismatch
          else Resume(c)
  }

  /** A cursor the service issues comes back as itself for its own namespace and
      changed_since, and is refused for any other. */
  lemma CursorRoundTrip(json: Json, c: ObjectCursor, ns: string, changedSince: string)
    requires Faithful(json) && c.version == 1 && c.id >= 1 && c.updatedAt != ZERO_TIME
    ensures DecodeObjectCursor(json, EncodeObjectCursor(json, c), ns, changedSince)
         == if c.ns == ns && c.changedSince == changedSince then Resume(c) else Mismatch
  {
    RoundTrip(json.marshal(c));
  }
}
