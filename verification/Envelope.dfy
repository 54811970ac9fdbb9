/** The wire envelope (Envelope.cpp): a length-prefixed header followed by the message body. */
module Envelopes {
  import opened Bytes
  import opened Cipher

  type ClientId = b: bytes | |b| == 6 witness [0, 0, 0, 0, 0, 0]

  datatype Envelope = Envelope(
    messageType: byte, timestamp: u32, clientId: ClientId, platform: byte, responseStatus: byte, messageBody: bytes)

  const STATUS_SUCCESS: byte := 0
  const STATUS_INVALID_SESSION: byte := 1

  /** Octets of the header after the length prefix: type 1, timestamp 4, client 6, platform 1, status 1. */
  const HEADER: nat := 13
  const PREFIX: nat := 4

  /** The size fits the 32-bit length prefix. */
  predicate Fits(e: Envelope) {
    HEADER + |e.messageBody| < TWO_TO_32
  }

  function Header(e: Envelope): (h: bytes)
    ensures |h| == HEADER
  {
    [e.messageType] + BigEndian(e.timestamp) + e.clientId + [e.platform, e.responseStatus]
  }

  function Encoded(e: Envelope): bytes
    requires Fits(e)
  {
    BigEndian(HEADER + |e.messageBody|) + Header(e) + e.messageBody
  }

  /** `Overread` stands for the payloads on which the source reads past the end of its input. */
  datatype Decoded = Rejected | Overread | Opened(envelope: Envelope)

  predicate PrefixMatches(payload: bytes) {
    |payload| >= PREFIX && FromBigEndian(payload[..PREFIX]) + PREFIX == |payload|
  }

  function Decode(payload: bytes): Decoded {
    if |payload| < HEADER || !PrefixMatches(payload) then Rejected
    else if |payload| < PREFIX + HEADER then Overread
    else Opened(Envelope(payload[4], FromBigEndian(payload[5..9]), payload[9..15], payload[15], payload[16], payload[17..]))
  }

  // ----- the imperative code

  /** memcpy into a buffer, returning the advanced offset. */
  method CopyTo(buffer: array<byte>, offset: nat, source: bytes) returns (next: nat)
    requires offset + |source| <= buffer.Length
    modifies buffer
    ensures next == offset + |source|
    ensures buffer[..next] == old(buffer[..offset]) + source
  {
    forall i | 0 <= i < |source| { buffer[offset + i] := source[i]; }
    next := offset + |source|;
  }

  method Serialize(e: Envelope) returns (payload: array<byte>)
    requires Fits(e)
    ensures fresh(payload) && payload[..] == Encoded(e)
  {
    var size := HEADER + |e.messageBody|;
    payload := new byte[size + PREFIX](_ => 0);
    var offset := CopyTo(payload, 0, BigEndian(size));
    offset := CopyTo(payload, offset, [e.messageType]);
    offset := CopyTo(payload, offset, BigEndian(e.timestamp));
    offset := CopyTo(payload, offset, e.clientId);
    offset := CopyTo(payload, offset, [e.platform]);
    offset := CopyTo(payload, offset, [e.responseStatus]);
    assert payload[..offset] == BigEndian(size) + Header(e);
    offset := CopyTo(payload, offset, e.messageBody);
    assert payload[..offset] == payload[..];
  }

  /** Reads field after field at an advancing offset; the source's checks come first. */
  method Deserialize(payload: array<byte>, size: u32) returns (r: Decoded)
    requires payload.Length == size
    ensures r == Decode(payload[..])
  {
    if size < HEADER {
      return Rejected;
    }
    var offset := 0;
    var messageSize := FromBigEndian(payload[offset..offset + 4]);
    offset := offset + 4;
    assert payload[..][..PREFIX] == payload[0..4];
    if messageSize + 4 != size {
      return Rejected;
    }
    // the source goes on; with fewer than thirteen octets left, its next reads leave the input
    if messageSize < HEADER {
      return Overread;
    }
    var messageType := payload[offset];
    offset := offset + 1;
    var timestamp := FromBigEndian(payload[offset..offset + 4]);
    offset := offset + 4;
    var clientId := payload[offset..offset + 6];
    offset := offset + 6;
    var platform := payload[offset];
    offset := offset + 1;
    var responseStatus := payload[offset];
    offset := offset + 1;
    var messageBody := payload[offset..offset + (messageSize - HEADER)];
    assert payload[..][5..9] == payload[5..9] && payload[..][9..15] == payload[9..15];
    assert payload[..][17..] == messageBody;
    return Opened(Envelope(messageType, timestamp, clientId, platform, responseStatus, messageBody));
  }

  // ----- the codec is a bijection

  lemma {:induction false} EncodedParts(e: Envelope)
    requires Fits(e)
    ensures var p := Encoded(e);
            && |p| == PREFIX + HEADER + |e.messageBody|
            && p[..4] == BigEndian(HEADER + |e.messageBody|)
            && p[4] == e.messageType && p[5..9] == BigEndian(e.timestamp)
            && p[9..15] == e.clientId && p[15] == e.platform && p[16] == e.responseStatus
            && p[17..] == e.messageBody
  {
    var h, p := Header(e), Encoded(e);
    assert p[4..17] == h;
    assert h[0] == e.messageType && h[1..5] == BigEndian(e.timestamp) && h[5..11] == e.clientId;
    assert p[5..9] == p[4..17][1..5] && p[9..15] == p[4..17][5..11];
    assert p[15] == h[11] && p[16] == h[12];
  }

  /** The fields by their octets: 0 to 3 the size of the rest, 4 the type, 5 to 8 the time, 9 to 14 the client, then two. */
  predicate LaidOut(p: bytes, e: Envelope) {
    && |p| == 17 + |e.messageBody|
    && IsWord(p[0], p[1], p[2], p[3], 13 + |e.messageBody|)
    && p[4] == e.messageType && IsWord(p[5], p[6], p[7], p[8], e.timestamp)
    && p[9..15] == e.clientId && p[15] == e.platform && p[16] == e.responseStatus && p[17..] == e.messageBody
  }

  /** A payload is the serialized form of an envelope exactly when it is laid out like that. */
  lemma {:induction false} WireLayout(e: Envelope, p: bytes)
    requires Fits(e)
    ensures LaidOut(Encoded(e), e)
    ensures LaidOut(p, e) <==> Decode(p) == Opened(e)
  {
    EncodedParts(e);
    BigEndianOctets(13 + |e.messageBody|);
    BigEndianOctets(e.timestamp);
    var q := Encoded(e);
    assert q[..4][0] == q[0] && q[..4][1] == q[1] && q[..4][2] == q[2] && q[..4][3] == q[3];
    assert q[5..9][0] == q[5] && q[5..9][1] == q[6] && q[5..9][2] == q[7] && q[5..9][3] == q[8];
    if Decode(p) == Opened(e) {
      EncodeDecoded(p);
    }
  }

  lemma {:induction false} DecodeEncoded(e: Envelope)
    requires Fits(e)
    ensures Decode(Encoded(e)) == Opened(e)
  {
    EncodedParts(e);
    WordRoundTrip(HEADER + |e.messageBody|);
    WordRoundTrip(e.timestamp);
  }

  /** What deserialize accepts serializes back to the same octets, so no two payloads mean the same envelope. */
  lemma {:induction false} EncodeDecoded(payload: bytes)
    requires Decode(payload).Opened?
    ensures Fits(Decode(payload).envelope)
    ensures Encoded(Decode(payload).envelope) == payload
  {
    var e := Decode(payload).envelope;
    OctetsRoundTrip(payload[..4]);
    OctetsRoundTrip(payload[5..9]);
    EncodedParts(e);
    var p := Encoded(e);
    assert forall i | 0 <= i < 4 :: payload[i] == payload[..4][i] == p[..4][i] == p[i];
    assert forall i | 5 <= i < 9 :: payload[i] == payload[5..9][i - 5] == p[5..9][i - 5] == p[i];
    assert forall i | 9 <= i < 15 :: payload[i] == payload[9..15][i - 9] == p[9..15][i - 9] == p[i];
    assert forall i | 17 <= i < |p| :: payload[i] == payload[17..][i - 17] == p[17..][i - 17] == p[i];
  }

  /** Which payloads are accepted, which are refused, and exactly when the source reads out of bounds. */
  lemma {:induction false} DecodeVerdict(payload: bytes)
    ensures Decode(payload).Opened? <==> PrefixMatches(payload) && |payload| >= 17
    ensures Decode(payload).Overread? <==> PrefixMatches(payload) && 13 <= |payload| <= 16
    ensures Decode(payload).Opened? <==> exists e :: Fits(e) && Encoded(e) == payload
  {
    if Decode(payload).Opened? {
      EncodeDecoded(payload);
      assert Encoded(Decode(payload).envelope) == payload;
    }
    forall e | Fits(e) && Encoded(e) == payload ensures Decode(payload).Opened? {
      DecodeEncoded(e);
    }
  }

  /** The missing four octets in the size check: a payload of thirteen that passes every check of the source. */
  lemma {:induction false} OverreadIsReachable()
    ensures exists payload: bytes :: |payload| == 13 && Decode(payload).Overread?
  {
    var payload: bytes := [0, 0, 0, 9] + [0, 0, 0, 0, 0, 0, 0, 0, 0];
    assert payload[..4] == [0, 0, 0, 9];
    assert FromBigEndian(payload[..4]) == 9;
    assert Decode(payload).Overread?;
  }

  // ----- the encrypted pipeline

  /** The body encrypted under `key` with the IV of the envelope's own timestamp. */
  function Sealed(e: BlockFunction, key: bytes, env: Envelope): Envelope {
    env.(messageBody := CfbEncrypt(e, key, TimestampIv(env.timestamp), env.messageBody))
  }

  /** What a peer holding `key` reads out of a payload: the IV is recomputed from the payload itself. */
  function BodyUnder(e: BlockFunction, key: bytes, payload: bytes): (body: bytes)
    requires Decode(payload).Opened?
  {
    var env := Decode(payload).envelope;
    CfbDecrypt(e, key, TimestampIv(env.timestamp), env.messageBody)
  }

  /** The IV by octets of the payload: twelve zeros, and the time as it is on the wire. */
  function WireIv(payload: bytes): bytes
    requires |payload| >= 17
  {
    [0, 0, 0, 0, 0, 0, 0, 0, 0, 0, 0, 0] + payload[5..9]
  }

  /**
   The body by octets of the payload: each is the octet on the wire, masked by exclusive-or with the image of the block
   of the wire before its own, and in the first block with that of the IV.
   */
  lemma {:induction false} BodyOctet(e: BlockFunction, key: bytes, payload: bytes, i: nat)
    requires Decode(payload).Opened? && i < |payload| - 17
    ensures |BodyUnder(e, key, payload)| == |payload| - 17
    ensures var block := if i < 16 then WireIv(payload) else payload[i - i % 16 + 1..i - i % 16 + 17];
            ExclusiveOr(BodyUnder(e, key, payload)[i], payload[17 + i], e(key, block, i % 16))
  {
    var env := Decode(payload).envelope;
    assert env.messageBody == payload[17..];
    OctetsRoundTrip(payload[5..9]);
    DecryptOctet(e, key, TimestampIv(env.timestamp), env.messageBody, i);
    if i >= 16 {
      var k := i - i % 16;
      assert payload[17..][k - 16..k] == payload[k + 1..k + 17];
    }
  }

  /**
   Encrypt, serialize, deserialize, decrypt is the identity on every body whose size fits the prefix; the
   payload's own length still fits 32 bits, as deserialize needs it, up to 2^32 - 18 octets of body.
   */
  lemma {:induction false} PeerReadsBody(e: BlockFunction, key: bytes, env: Envelope)
    requires Fits(env)
    ensures Fits(Sealed(e, key, env))
    ensures var payload := Encoded(Sealed(e, key, env));
            && Decode(payload) == Opened(Sealed(e, key, env))
            && BodyUnder(e, key, payload) == env.messageBody
            && (|payload| < TWO_TO_32 <==> |env.messageBody| <= TWO_TO_32 - 18)
  {
    DecodeEncoded(Sealed(e, key, env));
    DecryptEncrypt(e, key, TimestampIv(env.timestamp), env.messageBody);
  }
}
