/** The keys a process holds: decrypting with any, re-encrypting with the primary, parsing them. */
module Keyring {
  import opened Prelude
  import opened Text
  import opened Base64
  import opened Encryption

  datatype Ring = Ring(primary: Option<MasterKey>, retired: seq<MasterKey>) {
    /** The primary first, then the retired keys. */
    function Keys(): seq<MasterKey> {
      (match primary case Some(k) => [k] case None => []) + retired
    }
  }

  function Fingerprints(keys: seq<MasterKey>): seq<Bytes> {
    seq(|keys|, i requires 0 <= i < |keys| => keys[i].fingerprint)
  }

  predicate Distinct(keys: seq<MasterKey>) {
    forall i, j :: 0 <= i < j < |keys| ==> keys[i].fingerprint != keys[j].fingerprint
  }

  predicate AllUsable(keys: seq<MasterKey>) { forall i :: 0 <= i < |keys| ==> Usable(keys[i]) }

  predicate Matches(keys: seq<MasterKey>, fp: Bytes) { exists i :: 0 <= i < |keys| && keys[i].fingerprint == fp }

  /** The first key with the fingerprint that does not find the payload corrupt. */
  function FirstOpening(c: Crypto, keys: seq<MasterKey>, fp: Bytes, payload: Bytes): (r: Option<Bytes>)
    ensures r.Some? ==> exists i :: 0 <= i < |keys| && keys[i].fingerprint == fp && OpenPayload(c, keys[i], payload) == Ok(r.value)
    ensures r.None? ==> forall i :: 0 <= i < |keys| && keys[i].fingerprint == fp ==> OpenPayload(c, keys[i], payload).Err?
  {
    if keys == [] then None
    else if keys[0].fingerprint == fp && OpenPayload(c, keys[0], payload).Ok? then Some(OpenPayload(c, keys[0], payload).value)
    else FirstOpening(c, keys[1..], fp, payload)
  }

  function RingDecrypt(c: Crypto, keys: seq<MasterKey>, value: Bytes): Result<Bytes> {
    match EnvelopeParts(value)
    case None => Ok(value)
    case Some((fp, payload)) =>
      match FirstOpening(c, keys, fp, payload)
      case Some(plaintext) => Ok(plaintext)
      case None =>
        if Matches(keys, fp) then Err(Corrupt)
        else if keys == [] then Err(NoKey(fp))
        else Err(KeyMismatch(fp, Fingerprints(keys)))
  }

  lemma {:induction false} FirstOpeningSkips(c: Crypto, keys: seq<MasterKey>, n: nat, fp: Bytes, payload: Bytes)
    requires n <= |keys|
    requires forall i :: 0 <= i < n && keys[i].fingerprint == fp ==> OpenPayload(c, keys[i], payload).Err?
    ensures FirstOpening(c, keys, fp, payload) == FirstOpening(c, keys[n..], fp, payload)
  {
    if n > 0 {
      FirstOpeningSkips(c, keys[1..], n - 1, fp, payload);
      assert keys[1..][n - 1..] == keys[n..];
    } else {
      assert keys[0..] == keys;
    }
  }

  /** Keyring::decrypt, as the loop over the matching keys with its `matched` flag. */
  method DecryptWithRing(c: Crypto, ring: Ring, value: Bytes) returns (r: Result<Bytes>)
    ensures r == RingDecrypt(c, ring.Keys(), value)
  {
    var parts := EnvelopeParts(value);
    if parts.None? {
      return Ok(value);
    }
    var keys, fp, payload := ring.Keys(), parts.value.0, parts.value.1;
    var matched := false;
    for i := 0 to |keys|
      invariant matched <==> exists j :: 0 <= j < i && keys[j].fingerprint == fp
      invariant forall j :: 0 <= j < i && keys[j].fingerprint == fp ==> OpenPayload(c, keys[j], payload).Err?
    {
      if keys[i].fingerprint == fp {
        matched := true;
        var attempt := Decrypt(c, keys[i], value);
        if attempt != Err(Corrupt) {
          FirstOpeningSkips(c, keys, i, fp, payload);
          return attempt;
        }
      }
    }
    FirstOpeningSkips(c, keys, |keys|, fp, payload);
    if matched {
      return Err(Corrupt);
    } else if ring.primary.None? && ring.retired == [] {
      return Err(NoKey(fp));
    } else {
      return Err(KeyMismatch(fp, Fingerprints(keys)));
    }
  }

  /** The same verdict, up to the order in which a mismatch lists the held keys. */
  predicate SameVerdict(x: Result<Bytes>, y: Result<Bytes>) {
    match (x, y)
    case (Ok(p), Ok(q)) => p == q
    case (Err(KeyMismatch(e, _)), Err(KeyMismatch(f, _))) => e == f
    case (Err(e), Err(f)) => e == f
    case _ => false
  }

  /** With distinct fingerprints the order of the keys decides nothing. */
  lemma KeyOrderIsIrrelevant(c: Crypto, keys: seq<MasterKey>, others: seq<MasterKey>, value: Bytes)
    requires Distinct(keys) && Distinct(others)
    requires forall k :: k in keys <==> k in others
    ensures SameVerdict(RingDecrypt(c, keys, value), RingDecrypt(c, others, value))
  {
    if IsEnvelope(value) {
      var (fp, payload) := EnvelopeParts(value).value;
      assert forall k :: k in keys <==> exists i :: 0 <= i < |keys| && keys[i] == k;
      assert forall k :: k in others <==> exists i :: 0 <= i < |others| && others[i] == k;
      assert Matches(keys, fp) <==> exists k :: k in keys && k.fingerprint == fp;
      assert Matches(others, fp) <==> exists k :: k in others && k.fingerprint == fp;
      if Matches(keys, fp) {
        var i :| 0 <= i < |keys| && keys[i].fingerprint == fp;
        var j :| 0 <= j < |others| && others[j] == keys[i];
        OneMatch(c, keys, i, payload);
        OneMatch(c, others, j, payload);
      }
      assert keys == [] <==> others == [] by {
        if keys != [] { assert keys[0] in others; }
        if others != [] { assert others[0] in keys; }
      }
    }
  }

  lemma OneMatch(c: Crypto, keys: seq<MasterKey>, i: nat, payload: Bytes)
    requires Distinct(keys) && i < |keys|
    ensures var fp := keys[i].fingerprint;
            FirstOpening(c, keys, fp, payload) ==
            match OpenPayload(c, keys[i], payload) case Ok(p) => Some(p) case Err(_) => None
  {
    var fp := keys[i].fingerprint;
    FirstOpeningSkips(c, keys, i, fp, payload);
    FirstOpeningSkips(c, keys[i + 1..], |keys| - i - 1, fp, payload);
    assert keys[i..][1..] == keys[i + 1..];
  }

  // Re-encryption

  function Reencrypt(c: Crypto, ring: Ring, nonce: Bytes, value: Bytes): Result<Bytes> {
    match ring.primary
    case None => Ok(value)
    case Some(primary) =>
      match EnvelopeParts(value)
      case None => Encrypt(c, primary, nonce, value)
      case Some((fp, _)) =>
        if fp == primary.fingerprint then Ok(value)
        else match RingDecrypt(c, ring.Keys(), value)
          case Err(e) => Err(e)
          case Ok(plaintext) => Encrypt(c, primary, nonce, plaintext)
  }

  ghost predicate Ready(c: Crypto, ring: Ring, nonce: Bytes) {
    Sound(c) && AllUsable(ring.Keys()) && |nonce| == NONCE_LEN
  }

  /** A value of Rust's `str`, or what `decrypt` made of one, is text. */
  lemma DecryptedIsText(c: Crypto, keys: seq<MasterKey>, value: Bytes)
    requires Utf8(value) && RingDecrypt(c, keys, value).Ok?
    ensures Utf8(RingDecrypt(c, keys, value).value)
  {}

  /** What the primary seals, a ring led by it opens, whatever else the ring holds. */
  lemma PrimaryOpensFirst(c: Crypto, keys: seq<MasterKey>, nonce: Bytes, plaintext: Bytes)
    requires Sound(c) && keys != [] && Usable(keys[0]) && |nonce| == NONCE_LEN && Utf8(plaintext)
    requires Encrypt(c, keys[0], nonce, plaintext).Ok?
    ensures RingDecrypt(c, keys, Encrypt(c, keys[0], nonce, plaintext).value) == Ok(plaintext)
  {
    DecryptUndoesEncrypt(c, keys[0], nonce, plaintext);
  }

  predicate CarriesFingerprint(value: Bytes, k: MasterKey) {
    IsEnvelope(value) && EnvelopeParts(value).value.0 == k.fingerprint
  }

  /** A successful re-encryption either finds nothing to do or seals the plaintext anew. */
  lemma ReencryptCases(c: Crypto, ring: Ring, nonce: Bytes, value: Bytes)
    requires ring.primary.Some? && Reencrypt(c, ring, nonce, value).Ok?
    ensures var value' := Reencrypt(c, ring, nonce, value).value;
            || (value' == value && CarriesFingerprint(value, ring.primary.value))
            || (RingDecrypt(c, ring.Keys(), value).Ok?
                && Encrypt(c, ring.primary.value, nonce, RingDecrypt(c, ring.Keys(), value).value) == Ok(value'))
  {}

  /** Re-encryption keeps what a value decrypts to. */
  lemma ReencryptPreserves(c: Crypto, ring: Ring, nonce: Bytes, value: Bytes)
    requires Ready(c, ring, nonce) && Utf8(value) && Reencrypt(c, ring, nonce, value).Ok?
    ensures RingDecrypt(c, ring.Keys(), Reencrypt(c, ring, nonce, value).value) == RingDecrypt(c, ring.Keys(), value)
  {
    if ring.primary.Some? && Reencrypt(c, ring, nonce, value).value != value {
      ReencryptCases(c, ring, nonce, value);
      DecryptedIsText(c, ring.Keys(), value);
      assert ring.Keys()[0] == ring.primary.value;
      PrimaryOpensFirst(c, ring.Keys(), nonce, RingDecrypt(c, ring.Keys(), value).value);
    }
  }

  /** With a primary, the result is an envelope of the primary. */
  lemma ReencryptedIsUnderPrimary(c: Crypto, ring: Ring, nonce: Bytes, value: Bytes)
    requires Ready(c, ring, nonce) && Utf8(value) && ring.primary.Some? && Reencrypt(c, ring, nonce, value).Ok?
    ensures CarriesFingerprint(Reencrypt(c, ring, nonce, value).value, ring.primary.value)
  {
    ReencryptCases(c, ring, nonce, value);
    if !CarriesFingerprint(value, ring.primary.value) {
      DecryptedIsText(c, ring.Keys(), value);
      assert ring.Keys()[0] == ring.primary.value;
      DecryptUndoesEncrypt(c, ring.primary.value, nonce, RingDecrypt(c, ring.Keys(), value).value);
    }
  }

  /** Doing it again changes nothing, with whatever nonce; and an envelope is never turned back into plaintext. */
  lemma ReencryptIsIdempotent(c: Crypto, ring: Ring, nonce: Bytes, later: Bytes, value: Bytes)
    requires Ready(c, ring, nonce) && Utf8(value) && Reencrypt(c, ring, nonce, value).Ok?
    ensures var value' := Reencrypt(c, ring, nonce, value).value;
            Reencrypt(c, ring, later, value') == Ok(value') && (IsEnvelope(value) ==> IsEnvelope(value'))
  {
    if ring.primary.Some? {
      ReencryptedIsUnderPrimary(c, ring, nonce, value);
    }
  }

  /** Once re-encrypted, a readable value needs the primary alone: for a ring of distinct fingerprints. */
  lemma PrimaryAloneSuffices(c: Crypto, ring: Ring, nonce: Bytes, value: Bytes)
    requires Ready(c, ring, nonce) && Distinct(ring.Keys()) && ring.primary.Some? && Utf8(value)
    requires Reencrypt(c, ring, nonce, value).Ok? && RingDecrypt(c, ring.Keys(), value).Ok?
    ensures RingDecrypt(c, [ring.primary.value], Reencrypt(c, ring, nonce, value).value) == RingDecrypt(c, ring.Keys(), value)
  {
    var value' := Reencrypt(c, ring, nonce, value).value;
    ReencryptedIsUnderPrimary(c, ring, nonce, value);
    ReencryptPreserves(c, ring, nonce, value);
    SoleKeySuffices(c, ring.Keys(), value');
    assert ring.Keys()[0] == ring.primary.value;
  }

  /** An envelope under the first of several distinct keys is that key's to open. */
  lemma SoleKeySuffices(c: Crypto, keys: seq<MasterKey>, value: Bytes)
    requires Distinct(keys) && keys != [] && CarriesFingerprint(value, keys[0])
    ensures RingDecrypt(c, [keys[0]], value) == RingDecrypt(c, keys, value)
  {
    var payload := EnvelopeParts(value).value.1;
    OneMatch(c, keys, 0, payload);
    OneMatch(c, [keys[0]], 0, payload);
    assert Matches(keys, keys[0].fingerprint) && Matches([keys[0]], keys[0].fingerprint) by {
      assert [keys[0]][0] == keys[0];
    }
  }

  // A stored secret, written by a process with a primary key

  /** StoredSecret::encrypted: encrypt unless the value already looks like an envelope. */
  function Store(c: Crypto, ring: Ring, nonce: Bytes, value: Bytes): Result<Bytes> {
    if ring.primary.Some? && !IsEnvelope(value) then Encrypt(c, ring.primary.value, nonce, value) else Ok(value)
  }

  lemma {:induction false} RingOpensShorter(c: Crypto, keys: seq<MasterKey>, value: Bytes)
    requires Sound(c) && IsEnvelope(value) && RingDecrypt(c, keys, value).Ok?
    ensures |RingDecrypt(c, keys, value).value| < |value|
  {
    var (fp, payload) := EnvelopeParts(value).value;
    var i :| 0 <= i < |keys| && keys[i].fingerprint == fp
             && OpenPayload(c, keys[i], payload) == Ok(FirstOpening(c, keys, fp, payload).value);
    OpenedIsShorter(c, keys[i], value);
  }

  /** A secret read back is the secret that was saved exactly when it did not itself look like an envelope. */
  lemma StoredSecretRoundTrip(c: Crypto, ring: Ring, nonce: Bytes, value: Bytes)
    requires Ready(c, ring, nonce) && Utf8(value) && Store(c, ring, nonce, value).Ok?
    ensures RingDecrypt(c, ring.Keys(), Store(c, ring, nonce, value).value) == Ok(value) <==> !IsEnvelope(value)
  {
    if IsEnvelope(value) {
      if RingDecrypt(c, ring.Keys(), value).Ok? { RingOpensShorter(c, ring.Keys(), value); }
    } else if ring.primary.Some? {
      assert ring.Keys()[0] == ring.primary.value;
      PrimaryOpensFirst(c, ring.Keys(), nonce, value);
    }
  }
}
