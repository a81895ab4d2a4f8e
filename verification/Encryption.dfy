/**
 Encryption at rest: the envelope format, the master keys and the key ring.

 A string is the sequence of its UTF-8 bytes. The digest and the cipher are taken as
 they come (`Crypto`), under the facts a proof needs of them (`Sound`): AES-256-GCM
 opens what it sealed under the same key and nonce, and a ciphertext is 16 bytes, the
 tag, longer than its plaintext (NIST SP 800-38D). Nonces are parameters.
 */
module Encryption {
  import opened Prelude
  import opened Text
  import opened Base64

  const PREFIX: Bytes := [119, 103, 101, 110, 99, 58, 118, 49, 58] // wgenc:v1:
  const COLON: Byte := 58
  const COMMA: Byte := 44
  const KEY_LEN := 32
  const NONCE_LEN := 12
  const TAG_LEN := 16
  const FINGERPRINT_LEN := 8

  datatype Error =
    | KeyMismatch(expected: Bytes, actual: seq<Bytes>)
    | NoKey(expected: Bytes)
    | Corrupt
    | EncryptionFailed

  datatype Result<T> = Ok(value: T) | Err(error: Error)

  datatype Crypto = Crypto(
    digest: Bytes -> Bytes,
    seal: (Bytes, Bytes, Bytes) -> Option<Bytes>,   // key, nonce, plaintext
    open: (Bytes, Bytes, Bytes) -> Option<Bytes>)   // key, nonce, ciphertext

  ghost predicate Sound(c: Crypto) {
    && (forall k :: |c.digest(k)| >= FINGERPRINT_LEN)
    && (forall k, n, p :: c.seal(k, n, p).Some? ==>
          |c.seal(k, n, p).value| == |p| + TAG_LEN && c.open(k, n, c.seal(k, n, p).value) == Some(p))
    && (forall k, n, s :: c.open(k, n, s).Some? ==> |s| == |c.open(k, n, s).value| + TAG_LEN)
  }

  // Text

  predicate Continuation(b: Byte) { 128 <= b < 192 }

  /** Well-formed UTF-8, as section 4 of RFC 3629 defines it. */
  predicate Utf8(s: Bytes) {
    if s == [] then true
    else if s[0] < 128 then Utf8(s[1..])
    else if 194 <= s[0] < 224 then |s| >= 2 && Continuation(s[1]) && Utf8(s[2..])
    else if 224 <= s[0] < 240 then
      && |s| >= 3 && Continuation(s[1]) && Continuation(s[2])
      && (s[0] == 224 ==> s[1] >= 160) && (s[0] == 237 ==> s[1] < 160)
      && Utf8(s[3..])
    else if 240 <= s[0] < 245 then
      && |s| >= 4 && Continuation(s[1]) && Continuation(s[2]) && Continuation(s[3])
      && (s[0] == 240 ==> s[1] >= 144) && (s[0] == 244 ==> s[1] < 144)
      && Utf8(s[4..])
    else false
  }

  predicate HexDigit(b: Byte) { 48 <= b < 58 || 65 <= b < 71 || 97 <= b < 103 }

  function HexChar(v: int): (c: Byte)
    requires 0 <= v < 16
    ensures HexDigit(c)
  {
    if v < 10 then 48 + v else 87 + v
  }

  function HexLower(b: Bytes): (h: Bytes)
    ensures |h| == 2 * |b| && forall i :: 0 <= i < |h| ==> HexDigit(h[i])
  {
    if b == [] then [] else [HexChar(b[0] / 16), HexChar(b[0] % 16)] + HexLower(b[1..])
  }

  predicate Fingerprint(fp: Bytes) {
    |fp| == FINGERPRINT_LEN && forall i :: 0 <= i < |fp| ==> HexDigit(fp[i])
  }

  // Envelopes

  function Envelope(fp: Bytes, payload: Bytes): Bytes { PREFIX + fp + [COLON] + Encode(payload) }

  /** The fingerprint and payload of an envelope; anything else is plaintext. */
  function EnvelopeParts(value: Bytes): Option<(Bytes, Bytes)> {
    if !(PREFIX <= value) then None
    else match SplitOnce(value[|PREFIX|..], COLON)
      case None => None
      case Some((fp, encoded)) =>
        if !Fingerprint(fp) then None
        else match Decode(encoded)
          case None => None
          case Some(payload) => if |payload| < NONCE_LEN + TAG_LEN then None else Some((fp, payload))
  }

  predicate IsEnvelope(value: Bytes) { EnvelopeParts(value).Some? }

  lemma EnvelopeRoundTrip(fp: Bytes, payload: Bytes)
    requires Fingerprint(fp) && |payload| >= NONCE_LEN + TAG_LEN
    ensures EnvelopeParts(Envelope(fp, payload)) == Some((fp, payload))
  {
    var value := Envelope(fp, payload);
    assert value == PREFIX + (fp + [COLON] + Encode(payload));
    assert value[|PREFIX|..] == fp + [COLON] + Encode(payload);
    assert COLON !in fp;
    SplitOnceAt(fp, COLON, Encode(payload));
    DecodeUndoesEncode(payload);
  }

  lemma EnvelopeIsLonger(value: Bytes)
    requires IsEnvelope(value)
    ensures |value| > |EnvelopeParts(value).value.1|
  {}

  // Master keys

  datatype MasterKey = MasterKey(key: Bytes, fingerprint: Bytes)

  function NewKey(c: Crypto, key: Bytes): (k: MasterKey)
    requires |c.digest(key)| >= FINGERPRINT_LEN
    ensures Fingerprint(k.fingerprint)
  {
    MasterKey(key, HexLower(c.digest(key))[..FINGERPRINT_LEN])
  }

  function Encrypt(c: Crypto, k: MasterKey, nonce: Bytes, plaintext: Bytes): Result<Bytes> {
    match c.seal(k.key, nonce, plaintext)
    case None => Err(EncryptionFailed)
    case Some(sealed) => Ok(Envelope(k.fingerprint, nonce + sealed))
  }

  /** The payload's turn: nonce, then ciphertext, then text again. */
  function OpenPayload(c: Crypto, k: MasterKey, payload: Bytes): Result<Bytes> {
    if |payload| < NONCE_LEN then Err(Corrupt)
    else match c.open(k.key, payload[..NONCE_LEN], payload[NONCE_LEN..])
      case None => Err(Corrupt)
      case Some(plaintext) => if Utf8(plaintext) then Ok(plaintext) else Err(Corrupt)
  }

  function Decrypt(c: Crypto, k: MasterKey, value: Bytes): Result<Bytes> {
    match EnvelopeParts(value)
    case None => Ok(value)
    case Some((fp, payload)) =>
      if fp != k.fingerprint then Err(KeyMismatch(fp, [k.fingerprint])) else OpenPayload(c, k, payload)
  }

  predicate Usable(k: MasterKey) { Fingerprint(k.fingerprint) }

  /** Whatever the plaintext says, even an envelope of its own, decryption returns it. */
  lemma DecryptUndoesEncrypt(c: Crypto, k: MasterKey, nonce: Bytes, plaintext: Bytes)
    requires Sound(c) && Usable(k) && |nonce| == NONCE_LEN && Utf8(plaintext)
    requires Encrypt(c, k, nonce, plaintext).Ok?
    ensures EnvelopeParts(Encrypt(c, k, nonce, plaintext).value).Some?
    ensures EnvelopeParts(Encrypt(c, k, nonce, plaintext).value).value.0 == k.fingerprint
    ensures Decrypt(c, k, Encrypt(c, k, nonce, plaintext).value) == Ok(plaintext)
  {
    var sealed := c.seal(k.key, nonce, plaintext).value;
    EnvelopeRoundTrip(k.fingerprint, nonce + sealed);
    assert (nonce + sealed)[..NONCE_LEN] == nonce && (nonce + sealed)[NONCE_LEN..] == sealed;
  }

  /** An opened plaintext is shorter than the envelope it came in. */
  lemma OpenedIsShorter(c: Crypto, k: MasterKey, value: Bytes)
    requires Sound(c) && IsEnvelope(value) && Decrypt(c, k, value).Ok?
    ensures |Decrypt(c, k, value).value| < |value|
  {
    EnvelopeIsLonger(value);
  }
}
