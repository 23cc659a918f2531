/** The request body sent to the first provider (index.go:20-22): a
    hand-written Protocol Buffers message carrying the BSSID text, framed
    behind a fixed header of length-prefixed strings and a 4-byte length. */
module AppleRequest {
  import opened GoBytes
  import Bssid

  // ---- The code as written.

  /** `dataBSSID`: the BSSID text between four leading and four trailing
      literal bytes. */
  function DataBssid(bssid: GoString): (d: GoString)
    ensures |d| == |bssid| + 8
    ensures d[4..4 + |bssid|] == bssid
  {
    [0x12, 0x13, 0x0A, 0x11] + bssid + [0x18, 0x00, 0x20, 0x01]
  }

  const Locale: GoString := Ascii("en_US")
  const ClientId: GoString := Ascii("com.apple.locationd")
  const ClientVersion: GoString := Ascii("8.1.12B411")

  /** The literal bytes of the format string before its `%c` verb. */
  const RequestHeader: GoString :=
    [0x00, 0x01, 0x00, 0x05] + Locale + [0x00, 0x13] + ClientId + [0x00, 0x0A] + ClientVersion
    + [0x00, 0x00, 0x00, 0x01, 0x00, 0x00, 0x00]

  /** `payload`: the header, then `%c` of len(dataBSSID), then dataBSSID. */
  function Payload(bssid: GoString): (p: GoString)
    ensures |RequestHeader| + |DataBssid(bssid)| < |p| <= |RequestHeader| + 4 + |DataBssid(bssid)|
    ensures p[..|RequestHeader|] == RequestHeader
    ensures p[|p| - |DataBssid(bssid)|..] == DataBssid(bssid)
  {
    var d := DataBssid(bssid);
    var p := RequestHeader + FormatChar(|d|) + d;
    assert p[|p| - |d|..] == d;
    p
  }

  // ---- The Protocol Buffers encoding the inner message follows.

  const WireVarint: nat := 0
  const WireLengthDelimited: nat := 2

  /** Base-128 varint: seven bits per byte, low group first, high bit set on
      every byte but the last. */
  function Varint(n: nat): seq<byte>
    decreases n
  {
    if n < 0x80 then [n as byte] else [(n % 0x80 + 0x80) as byte] + Varint(n / 0x80)
  }

  /** A field key: the field number shifted left by three, or-ed with the wire type. */
  function FieldKey(field: nat, wireType: nat): seq<byte>
    requires wireType < 8
  {
    Varint(field * 8 + wireType)
  }

  function LengthDelimitedField(field: nat, payload: seq<byte>): seq<byte>
  {
    FieldKey(field, WireLengthDelimited) + Varint(|payload|) + payload
  }

  function VarintField(field: nat, value: nat): seq<byte>
  {
    FieldKey(field, WireVarint) + Varint(value)
  }

  /** The request message: field 2 holds a sub-message whose field 1 is the
      BSSID string; fields 3 and 4 are the varints 0 and 1. */
  function LocationRequest(bssid: GoString): seq<byte>
  {
    LengthDelimitedField(2, LengthDelimitedField(1, bssid)) + VarintField(3, 0) + VarintField(4, 1)
  }

  /** A varint's first byte is below 0x80 exactly when the value fits in one byte. */
  lemma VarintFirstByte(n: nat)
    ensures |Varint(n)| >= 1
    ensures Varint(n)[0] < 0x80 <==> n < 0x80
    ensures n < 0x80 ==> Varint(n) == [n as byte]
  {
  }

  /** The hard-coded bytes of dataBSSID are that message exactly when the
      BSSID is 17 bytes long: 0x11 is its length and 0x13 the length of the
      field-1 sub-message around it. */
  lemma DataBssidIsLocationRequest(bssid: GoString)
    ensures DataBssid(bssid) == LocationRequest(bssid) <==> |bssid| == 17
  {
    var inner := LengthDelimitedField(1, bssid);
    VarintFirstByte(|bssid|);
    VarintFirstByte(|inner|);
    VarintFirstByte(18);
    VarintFirstByte(10);
    VarintFirstByte(24);
    VarintFirstByte(32);
    VarintFirstByte(0);
    VarintFirstByte(1);
    if DataBssid(bssid) == LocationRequest(bssid) {
      assert LocationRequest(bssid)[1] == Varint(|inner|)[0];
      assert |inner| == 19;
    }
  }

  // ---- The framing the header follows.

  /** A string behind its 2-byte big-endian length. */
  function LengthPrefixed(s: GoString): seq<byte>
    requires |s| < 0x1_0000
  {
    BigEndian16(|s|) + s
  }

  /** The request framing: a leading 00 01, the locale, client identifier and
      client version as length-prefixed strings, the fixed 00 00 00 01, then
      the message behind its 4-byte big-endian length. */
  function FramedRequest(message: GoString): seq<byte>
    requires |message| < 0x1_0000_0000
  {
    [0x00, 0x01] + LengthPrefixed(Locale) + LengthPrefixed(ClientId) + LengthPrefixed(ClientVersion)
    + [0x00, 0x00, 0x00, 0x01] + BigEndian32(|message|) + message
  }

  /** Each hard-coded 2-byte prefix in the header is the length of the string
      after it, and the header is 49 bytes: the framing up to the first three
      bytes of the 4-byte message length. */
  lemma RequestHeaderLayout()
    ensures |RequestHeader| == 49
    ensures BigEndianValue(RequestHeader[2..4]) == |Locale| == 5
    ensures RequestHeader[4..9] == Locale
    ensures BigEndianValue(RequestHeader[9..11]) == |ClientId| == 19
    ensures RequestHeader[11..30] == ClientId
    ensures BigEndianValue(RequestHeader[30..32]) == |ClientVersion| == 10
    ensures RequestHeader[32..42] == ClientVersion
    ensures RequestHeader == [0x00, 0x01] + LengthPrefixed(Locale) + LengthPrefixed(ClientId)
      + LengthPrefixed(ClientVersion) + [0x00, 0x00, 0x00, 0x01, 0x00, 0x00, 0x00]
  {
    var h := RequestHeader;
    assert h[2..4] == BigEndian16(5);
    assert h[9..11] == BigEndian16(19);
    assert h[30..32] == BigEndian16(10);
  }

  /** The payload is the framing of dataBSSID exactly when `%c` writes its
      length as one byte, that is when the BSSID is shorter than 120 bytes;
      for a dataBSSID of 128 bytes or more `%c` writes two or more UTF-8
      bytes and the 4-byte length field no longer fits the framing. */
  lemma PayloadIsFramed(bssid: GoString)
    requires |bssid| + 8 < 0x1_0000_0000
    ensures Payload(bssid) == FramedRequest(DataBssid(bssid)) <==> |bssid| < 120
  {
    var d := DataBssid(bssid);
    RequestHeaderLayout();
    if |bssid| < 120 {
      assert BigEndian32(|d|) == [0x00, 0x00, 0x00, |d| as byte];
      assert RequestHeader + FormatChar(|d|) == [0x00, 0x01] + LengthPrefixed(Locale) + LengthPrefixed(ClientId)
        + LengthPrefixed(ClientVersion) + [0x00, 0x00, 0x00, 0x01] + BigEndian32(|d|);
    } else {
      assert |Payload(bssid)| != |FramedRequest(d)|;
    }
  }

  /** For every valid BSSID the payload is 75 bytes: the 49-byte header, the
      length byte 25, then the 25 bytes of dataBSSID, which are the intended
      request message; and it is the framing of that message. */
  lemma ValidBssidPayload(bssid: GoString)
    requires Bssid.IsValidBssid(bssid)
    ensures |DataBssid(bssid)| == 25
    ensures DataBssid(bssid) == LocationRequest(bssid)
    ensures DataBssid(bssid)[3] as int == |bssid| == 17
    ensures DataBssid(bssid)[1] as int == |DataBssid(bssid)[2..4 + |bssid|]| == 19
    ensures |Payload(bssid)| == 75
    ensures Payload(bssid)[49] == 25
    ensures Payload(bssid)[50..] == DataBssid(bssid)
    ensures Payload(bssid) == FramedRequest(DataBssid(bssid))
  {
    DataBssidIsLocationRequest(bssid);
    PayloadIsFramed(bssid);
    RequestHeaderLayout();
  }
}
