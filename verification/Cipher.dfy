/**
 The cipher behind EvpEncryptor: CFB with 128-bit segments (section 6.3 of NIST SP 800-38A)
 over a block function that stays uninterpreted, and the IV made from a timestamp.
 */
module Cipher {
  import opened Bytes

  /** `e(key, input, i)` is octet `i` of the block cipher's output for `input` under `key`. */
  type BlockFunction = (bytes, bytes, nat) -> byte

  const BLOCK: nat := 16
  const INT_MAX: nat := 0x7FFF_FFFF

  /** `text` combined with the output block for the shift register `reg`. */
  function Masked(e: BlockFunction, key: bytes, reg: bytes, text: bytes): (r: bytes)
    ensures |r| == |text|
  {
    seq<byte>(|text|, i requires 0 <= i < |text| => Xor(text[i], e(key, reg, i)))
  }

  function CfbEncrypt(e: BlockFunction, key: bytes, reg: bytes, plain: bytes): (c: bytes)
    ensures |c| == |plain|
    decreases |plain|
  {
    if |plain| <= BLOCK then Masked(e, key, reg, plain)
    else
      var head := Masked(e, key, reg, plain[..BLOCK]);
      head + CfbEncrypt(e, key, head, plain[BLOCK..])
  }

  function CfbDecrypt(e: BlockFunction, key: bytes, reg: bytes, cipher: bytes): (p: bytes)
    ensures |p| == |cipher|
    decreases |cipher|
  {
    if |cipher| <= BLOCK then Masked(e, key, reg, cipher)
    else Masked(e, key, reg, cipher[..BLOCK]) + CfbDecrypt(e, key, cipher[..BLOCK], cipher[BLOCK..])
  }

  lemma {:induction false} MaskedTwice(e: BlockFunction, key: bytes, reg: bytes, text: bytes)
    ensures Masked(e, key, reg, Masked(e, key, reg, text)) == text
  {
    var r := Masked(e, key, reg, Masked(e, key, reg, text));
    forall i | 0 <= i < |text| ensures r[i] == text[i] {
      XorUndo(text[i], e(key, reg, i));
    }
  }

  /** Decryption undoes encryption for every length, a partial last block included. */
  lemma {:induction false} DecryptEncrypt(e: BlockFunction, key: bytes, reg: bytes, plain: bytes)
    ensures CfbDecrypt(e, key, reg, CfbEncrypt(e, key, reg, plain)) == plain
    decreases |plain|
  {
    if |plain| <= BLOCK {
      MaskedTwice(e, key, reg, plain);
    } else {
      var head := Masked(e, key, reg, plain[..BLOCK]);
      var tail := CfbEncrypt(e, key, head, plain[BLOCK..]);
      var c := head + tail;
      assert c[..BLOCK] == head && c[BLOCK..] == tail;
      MaskedTwice(e, key, reg, plain[..BLOCK]);
      DecryptEncrypt(e, key, head, plain[BLOCK..]);
      assert plain == plain[..BLOCK] + plain[BLOCK..];
    }
  }

  /** Encryption undoes decryption, so for a fixed key and IV the cipher is a bijection. */
  lemma {:induction false} EncryptDecrypt(e: BlockFunction, key: bytes, reg: bytes, cipher: bytes)
    ensures CfbEncrypt(e, key, reg, CfbDecrypt(e, key, reg, cipher)) == cipher
    decreases |cipher|
  {
    if |cipher| <= BLOCK {
      MaskedTwice(e, key, reg, cipher);
    } else {
      var head := Masked(e, key, reg, cipher[..BLOCK]);
      var tail := CfbDecrypt(e, key, cipher[..BLOCK], cipher[BLOCK..]);
      var p := head + tail;
      assert p[..BLOCK] == head && p[BLOCK..] == tail;
      MaskedTwice(e, key, reg, cipher[..BLOCK]);
      EncryptDecrypt(e, key, cipher[..BLOCK], cipher[BLOCK..]);
      assert cipher == cipher[..BLOCK] + cipher[BLOCK..];
    }
  }

  /** What the shift register holds when octet `i` is produced: the IV, then whole ciphertext blocks. */
  function Register(iv: bytes, cipher: bytes, i: nat): bytes
    requires i < |cipher|
  {
    if i < 16 then iv else cipher[i - i % 16 - 16..i - i % 16]
  }

  lemma {:induction false} RegisterShift(head: bytes, tail: bytes, iv: bytes, i: nat)
    requires |head| == 16 && 16 <= i < 16 + |tail|
    ensures Register(iv, head + tail, i) == Register(head, tail, i - 16) && (i - 16) % 16 == i % 16
  {
    var k := i - i % 16;
    assert (i - 16) % 16 == i % 16;
    if i < 32 {
      assert k == 16 && (head + tail)[0..16] == head;
    } else {
      assert (head + tail)[k - 16..k] == tail[k - 32..k - 16];
    }
  }

  /**
   The closed form of CFB: each octet is masked by the image of the previous ciphertext block, and the first sixteen by
   that of the IV; masking is exclusive-or, bit by bit.
   */
  lemma {:induction false} EncryptOctet(e: BlockFunction, key: bytes, iv: bytes, plain: bytes, i: nat)
    requires i < |plain|
    ensures var c := CfbEncrypt(e, key, iv, plain);
            && ExclusiveOr(c[i], plain[i], e(key, if i < 16 then iv else c[i - i % 16 - 16..i - i % 16], i % 16))
            && c[i] == Xor(plain[i], e(key, Register(iv, c, i), i % 16))
    decreases |plain|
  {
    var c := CfbEncrypt(e, key, iv, plain);
    if |plain| <= BLOCK || i < 16 {
      XorIsExclusiveOr(plain[i], e(key, iv, i));
    } else {
      var head := Masked(e, key, iv, plain[..BLOCK]);
      var rest := plain[BLOCK..];
      var tail := CfbEncrypt(e, key, head, rest);
      EncryptOctet(e, key, head, rest, i - 16);
      RegisterShift(head, tail, iv, i);
      assert c[i] == tail[i - 16] && rest[i - 16] == plain[i];
      XorIsExclusiveOr(plain[i], e(key, Register(iv, c, i), i % 16));
    }
  }

  /** Each octet of a decrypted text is that of the ciphertext under the same mask. */
  lemma {:induction false} DecryptOctet(e: BlockFunction, key: bytes, iv: bytes, cipher: bytes, i: nat)
    requires i < |cipher|
    ensures ExclusiveOr(CfbDecrypt(e, key, iv, cipher)[i], cipher[i],
                        e(key, if i < 16 then iv else cipher[i - i % 16 - 16..i - i % 16], i % 16))
  {
    var plain := CfbDecrypt(e, key, iv, cipher);
    EncryptDecrypt(e, key, iv, cipher);
    EncryptOctet(e, key, iv, plain, i);
    ExclusiveOrBack(cipher[i], plain[i], e(key, Register(iv, cipher, i), i % 16));
  }

  lemma ExclusiveOrBack(r: byte, a: byte, b: byte)
    requires ExclusiveOr(r, a, b)
    ensures ExclusiveOr(a, r, b)
  {
  }

  /** Either direction of the cipher. */
  function Cfb(encrypting: bool, e: BlockFunction, key: bytes, reg: bytes, input: bytes): bytes {
    if encrypting then CfbEncrypt(e, key, reg, input) else CfbDecrypt(e, key, reg, input)
  }

  lemma {:induction false} CfbSplit(encrypting: bool, e: BlockFunction, key: bytes, reg: bytes, input: bytes, at: nat, n: nat)
    requires at < |input| && n == if |input| - at <= BLOCK then |input| - at else BLOCK
    ensures var chunk := Masked(e, key, reg, input[at..at + n]);
            Cfb(encrypting, e, key, reg, input[at..])
            == chunk + Cfb(encrypting, e, key, if encrypting then chunk else input[at..at + n], input[at + n..])
  {
    assert input[at..][..n] == input[at..at + n] && input[at..][n..] == input[at + n..];
    if |input| - at <= BLOCK {
      assert input[at..at + n] == input[at..] && input[at + n..] == [];
    }
  }

  lemma CfbEmpty(encrypting: bool, e: BlockFunction, key: bytes, reg: bytes, input: bytes)
    requires input == []
    ensures Cfb(encrypting, e, key, reg, input) == []
  {
  }

  lemma Regroup(a: bytes, b: bytes, c: bytes)
    ensures a + (b + c) == a + b + c
  {
  }

  /** One EVP update: fills `out` from the start, a block at a time, shifting ciphertext into the register. */
  method EvpUpdate(e: BlockFunction, key: bytes, iv: bytes, input: bytes, encrypting: bool, out: array<byte>)
    returns (len: nat)
    requires |input| <= out.Length
    modifies out
    ensures len == |input|
    ensures out[..len] == Cfb(encrypting, e, key, iv, input)
  {
    var reg := iv;
    len := 0;
    assert input[0..] == input;
    while len < |input|
      invariant len <= |input|
      invariant out[..len] + Cfb(encrypting, e, key, reg, input[len..]) == Cfb(encrypting, e, key, iv, input)
    {
      var n := if |input| - len <= BLOCK then |input| - len else BLOCK;
      var chunk := Masked(e, key, reg, input[len..len + n]);
      ghost var done, tail := out[..len], input[len + n..];
      CfbSplit(encrypting, e, key, reg, input, len, n);
      reg := if encrypting then chunk else input[len..len + n];
      Regroup(done, chunk, Cfb(encrypting, e, key, reg, tail));
      len := PutBlock(out, len, chunk);
    }
    CfbEmpty(encrypting, e, key, reg, input[len..]);
  }

  /** Writes a block of output at `at`. */
  method PutBlock(out: array<byte>, at: nat, chunk: bytes) returns (end: nat)
    requires at + |chunk| <= out.Length
    modifies out
    ensures end == at + |chunk| && out[..end] == old(out[..at]) + chunk
  {
    forall i | 0 <= i < |chunk| { out[at + i] := chunk[i]; }
    end := at + |chunk|;
  }

  /** EvpEncryptor::encrypt: a buffer one block longer than the text (CFB is a stream, its block size is 1). */
  method Encrypt(e: BlockFunction, plain: bytes, key: bytes, iv: bytes) returns (cipher: bytes)
    requires |plain| <= INT_MAX && |iv| >= BLOCK
    ensures cipher == CfbEncrypt(e, key, iv[..BLOCK], plain)
  {
    var buffer := new byte[|plain| + 1](_ => 0);
    var totalLen := EvpUpdate(e, key, iv[..BLOCK], plain, true, buffer);
    cipher := buffer[..totalLen];
  }

  method Decrypt(e: BlockFunction, cipher: bytes, key: bytes, iv: bytes) returns (plain: bytes)
    requires |cipher| <= INT_MAX && |iv| >= BLOCK
    ensures plain == CfbDecrypt(e, key, iv[..BLOCK], cipher)
  {
    var buffer := new byte[|cipher| + 1](_ => 0);
    var totalLen := EvpUpdate(e, key, iv[..BLOCK], cipher, false, buffer);
    plain := buffer[..totalLen];
  }

  const MAX_IV_LENGTH: nat := 16

  /** The sixteen octets the cipher reads: twelve zeros, then the timestamp, most significant octet first. */
  function TimestampIv(timestamp: u32): (iv: bytes)
    ensures |iv| == BLOCK
  {
    [0, 0, 0, 0, 0, 0, 0, 0, 0, 0, 0, 0] + BigEndian(timestamp)
  }

  /** timestamp2iv inserts into a full-length vector, so the vector ends up four octets too long. */
  method Timestamp2Iv(timestamp: u32) returns (iv: bytes)
    ensures |iv| == 20
    ensures iv[..BLOCK] == TimestampIv(timestamp)
    ensures iv[BLOCK..] == [0, 0, 0, 0]
  {
    iv := seq(MAX_IV_LENGTH, _ => 0);
    var at := MAX_IV_LENGTH - 4;
    iv := iv[..at] + BigEndian(timestamp) + iv[at..];
  }

  /** Twelve zeros, and the timestamp in octets 12 to 15, the most significant first. */
  lemma {:induction false} TimestampIvOctets(timestamp: u32)
    ensures var iv := TimestampIv(timestamp);
            (forall k | 0 <= k < 12 :: iv[k] == 0) && IsWord(iv[12], iv[13], iv[14], iv[15], timestamp)
  {
    BigEndianOctets(timestamp);
  }

  lemma {:induction false} TimestampIvInjective(s: u32, t: u32)
    requires TimestampIv(s) == TimestampIv(t)
    ensures s == t
  {
    assert TimestampIv(s)[12..] == BigEndian(s);
    assert TimestampIv(t)[12..] == BigEndian(t);
    BigEndianInjective(s, t);
  }
}
