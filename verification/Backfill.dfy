/**
 The rewrite half of a key rotation: probe every stored secret, re-encrypt every row
 under the primary key, and only then give the old key up.
 */
module Backfill {
  import opened Prelude
  import opened Base64
  import opened Encryption
  import opened Keyring
  import opened KeyringParsing

  /** A target, client key, secret backend or host key: its secrets, and whether its options parse. */
  datatype Row = Row(readable: bool, secrets: seq<Bytes>)

  /** Fresh nonces, by row and secret. */
  type Nonces = (nat, nat) -> Bytes

  datatype Outcome = Settled(freed: bool) | AwaitingCluster | Failed

  ghost predicate Rewritable(c: Crypto, ring: Ring, nonces: Nonces, rows: seq<Row>) {
    && Sound(c) && AllUsable(ring.Keys())
    && (forall r, i :: |nonces(r, i)| == NONCE_LEN)
    && forall r, i :: 0 <= r < |rows| && 0 <= i < |rows[r].secrets| ==> Utf8(rows[r].secrets[i])
  }

  /** Every secret of the row, re-encrypted. */
  predicate AllReencrypt(c: Crypto, ring: Ring, nonces: Nonces, r: nat, before: seq<Bytes>, after: seq<Bytes>) {
    |after| == |before| && forall i :: 0 <= i < |before| ==> Reencrypt(c, ring, nonces(r, i), before[i]) == Ok(after[i])
  }

  /** StoredSecrets::reencrypt_all: one failure abandons the whole row. */
  method ReencryptAll(c: Crypto, ring: Ring, nonces: Nonces, r: nat, secrets: seq<Bytes>) returns (after: Option<seq<Bytes>>)
    ensures after.Some? ==> AllReencrypt(c, ring, nonces, r, secrets, after.value)
    ensures after.None? ==> exists i :: 0 <= i < |secrets| && Reencrypt(c, ring, nonces(r, i), secrets[i]).Err?
  {
    var done: seq<Bytes> := [];
    for i := 0 to |secrets|
      invariant |done| == i
      invariant forall j :: 0 <= j < i ==> Reencrypt(c, ring, nonces(r, j), secrets[j]) == Ok(done[j])
    {
      var again := Reencrypt(c, ring, nonces(r, i), secrets[i]);
      if again.Err? {
        return None;
      }
      done := done + [again.value];
    }
    return Some(done);
  }

  predicate Decryptable(c: Crypto, ring: Ring, secrets: seq<Bytes>) {
    forall i :: 0 <= i < |secrets| ==> RingDecrypt(c, ring.Keys(), secrets[i]).Ok?
  }

  /** What a rewrite may do to row `r`: nothing, or re-encrypt all of it. */
  ghost predicate Rewritten(c: Crypto, ring: Ring, nonces: Nonces, r: nat, before: Row, after: Row) {
    after == before || (before.readable && after.readable && AllReencrypt(c, ring, nonces, r, before.secrets, after.secrets))
  }

  /** What a rewrite that ran to its end has done to row `r`. */
  ghost predicate FullyRewritten(c: Crypto, ring: Ring, nonces: Nonces, r: nat, before: Row, after: Row) {
    && Rewritten(c, ring, nonces, r, before, after)
    && (before.readable ==>
          || AllReencrypt(c, ring, nonces, r, before.secrets, after.secrets)
          || exists i :: 0 <= i < |before.secrets| && Reencrypt(c, ring, nonces(r, i), before.secrets[i]).Err?)
  }

  /** The row says the same as before, to anyone with the ring. */
  predicate SameMeaning(c: Crypto, ring: Ring, before: Row, after: Row) {
    && after.readable == before.readable && |after.secrets| == |before.secrets|
    && forall i :: 0 <= i < |before.secrets| ==>
         RingDecrypt(c, ring.Keys(), after.secrets[i]) == RingDecrypt(c, ring.Keys(), before.secrets[i])
  }

  /** The row says the same as before to a process that has nothing but the primary key. */
  predicate SameToPrimary(c: Crypto, ring: Ring, before: Row, after: Row)
    requires ring.primary.Some?
  {
    && after.readable == before.readable && |after.secrets| == |before.secrets|
    && forall i :: 0 <= i < |before.secrets| ==>
         && RingDecrypt(c, ring.Keys(), before.secrets[i]).Ok?
         && RingDecrypt(c, [ring.primary.value], after.secrets[i]) == RingDecrypt(c, ring.Keys(), before.secrets[i])
  }

  /** The cipher takes each plaintext that is to be sealed; AES-GCM refuses 64 GiB and more. */
  predicate Sealable(c: Crypto, ring: Ring, nonces: Nonces, r: nat, secrets: seq<Bytes>)
    requires ring.primary.Some? && Decryptable(c, ring, secrets)
  {
    forall i :: 0 <= i < |secrets| && !CarriesFingerprint(secrets[i], ring.primary.value) ==>
      c.seal(ring.primary.value.key, nonces(r, i), RingDecrypt(c, ring.Keys(), secrets[i]).value).Some?
  }

  /** No secret of the row is under another key than the primary. */
  predicate AlreadyFree(ring: Ring, secrets: seq<Bytes>)
    requires ring.primary.Some?
  {
    forall i :: 0 <= i < |secrets| ==> !IsEnvelope(secrets[i]) || CarriesFingerprint(secrets[i], ring.primary.value)
  }

  lemma RewrittenKeepsMeaning(c: Crypto, ring: Ring, nonces: Nonces, rows: seq<Row>, r: nat, after: Row)
    requires Rewritable(c, ring, nonces, rows) && r < |rows| && Rewritten(c, ring, nonces, r, rows[r], after)
    ensures SameMeaning(c, ring, rows[r], after)
  {
    if after != rows[r] {
      forall i | 0 <= i < |after.secrets|
        ensures RingDecrypt(c, ring.Keys(), after.secrets[i]) == RingDecrypt(c, ring.Keys(), rows[r].secrets[i])
      {
        ReencryptPreserves(c, ring, nonces(r, i), rows[r].secrets[i]);
      }
    }
  }

  lemma ReadableReencrypts(c: Crypto, ring: Ring, nonce: Bytes, value: Bytes)
    requires ring.primary.Some? && RingDecrypt(c, ring.Keys(), value).Ok?
    ensures Reencrypt(c, ring, nonce, value).Ok? <==>
            || CarriesFingerprint(value, ring.primary.value)
            || c.seal(ring.primary.value.key, nonce, RingDecrypt(c, ring.Keys(), value).value).Some?
  {}

  lemma SealedNeedsPrimaryAlone(c: Crypto, ring: Ring, nonces: Nonces, rows: seq<Row>, r: nat, after: Row)
    requires Rewritable(c, ring, nonces, rows) && Distinct(ring.Keys()) && ring.primary.Some? && r < |rows| && rows[r].readable
    requires FullyRewritten(c, ring, nonces, r, rows[r], after)
    requires Decryptable(c, ring, rows[r].secrets) && Sealable(c, ring, nonces, r, rows[r].secrets)
    ensures SameToPrimary(c, ring, rows[r], after)
  {
    var secrets := rows[r].secrets;
    forall i | 0 <= i < |secrets| ensures Reencrypt(c, ring, nonces(r, i), secrets[i]).Ok? {
      ReadableReencrypts(c, ring, nonces(r, i), secrets[i]);
    }
    forall i | 0 <= i < |secrets|
      ensures RingDecrypt(c, [ring.primary.value], after.secrets[i]) == RingDecrypt(c, ring.Keys(), secrets[i])
    {
      PrimaryAloneSuffices(c, ring, nonces(r, i), secrets[i]);
    }
  }

  /** One secret refused by the cipher leaves the whole row as it was. */
  lemma UnsealedIsLeft(c: Crypto, ring: Ring, nonces: Nonces, r: nat, before: Row, after: Row)
    requires ring.primary.Some? && Decryptable(c, ring, before.secrets) && !Sealable(c, ring, nonces, r, before.secrets)
    requires Rewritten(c, ring, nonces, r, before, after)
    ensures after == before
  {
    var i :| 0 <= i < |before.secrets| && !CarriesFingerprint(before.secrets[i], ring.primary.value)
             && c.seal(ring.primary.value.key, nonces(r, i), RingDecrypt(c, ring.Keys(), before.secrets[i]).value).None?;
    ReadableReencrypts(c, ring, nonces(r, i), before.secrets[i]);
  }

  /** A value opens with the primary alone, as with the ring, exactly if it is not under another key. */
  lemma OpensAloneIff(c: Crypto, ring: Ring, value: Bytes)
    requires Distinct(ring.Keys()) && ring.primary.Some? && RingDecrypt(c, ring.Keys(), value).Ok?
    ensures RingDecrypt(c, [ring.primary.value], value) == RingDecrypt(c, ring.Keys(), value) <==>
            !IsEnvelope(value) || CarriesFingerprint(value, ring.primary.value)
  {
    if CarriesFingerprint(value, ring.primary.value) {
      SoleKeySuffices(c, ring.Keys(), value);
      assert ring.Keys()[0] == ring.primary.value;
    }
  }

  /** A readable row that went through the rewrite needs the primary alone, if and only if the cipher sealed it or it needed no sealing. */
  lemma FreedIffSealableOrFree(c: Crypto, ring: Ring, nonces: Nonces, rows: seq<Row>, r: nat, after: Row)
    requires Rewritable(c, ring, nonces, rows) && Distinct(ring.Keys()) && ring.primary.Some? && r < |rows| && rows[r].readable
    requires FullyRewritten(c, ring, nonces, r, rows[r], after) && Decryptable(c, ring, rows[r].secrets)
    ensures SameToPrimary(c, ring, rows[r], after) <==> Sealable(c, ring, nonces, r, rows[r].secrets) || AlreadyFree(ring, rows[r].secrets)
  {
    if Sealable(c, ring, nonces, r, rows[r].secrets) {
      SealedNeedsPrimaryAlone(c, ring, nonces, rows, r, after);
    } else {
      UnsealedIsLeft(c, ring, nonces, r, rows[r], after);
      forall i | 0 <= i < |after.secrets|
        ensures RingDecrypt(c, [ring.primary.value], after.secrets[i]) == RingDecrypt(c, ring.Keys(), after.secrets[i]) <==>
                !IsEnvelope(after.secrets[i]) || CarriesFingerprint(after.secrets[i], ring.primary.value)
      {
        OpensAloneIff(c, ring, after.secrets[i]);
      }
    }
  }

  /** What giving up the old key leaves: each readable row needs the primary alone, unless the cipher refused it. */
  ghost predicate Freed(c: Crypto, ring: Ring, nonces: Nonces, before: seq<Row>, after: seq<Row>) {
    && ring.primary.Some? && |after| == |before|
    && forall r :: 0 <= r < |before| && before[r].readable ==>
         && Decryptable(c, ring, before[r].secrets)
         && (SameToPrimary(c, ring, before[r], after[r]) <==>
             Sealable(c, ring, nonces, r, before[r].secrets) || AlreadyFree(ring, before[r].secrets))
  }

  class SecretStore {
    var rows: seq<Row>

    constructor (rows: seq<Row>)
      ensures this.rows == rows
    {
      this.rows := rows;
    }

    /** probe_undecryptable: how many readable rows hold a secret the ring cannot open. */
    method ProbeUndecryptable(c: Crypto, ring: Ring) returns (undecryptable: nat)
      ensures undecryptable == 0 <==> forall r :: 0 <= r < |rows| && rows[r].readable ==> Decryptable(c, ring, rows[r].secrets)
    {
      undecryptable := 0;
      for r := 0 to |rows|
        invariant undecryptable == 0 <==> forall q :: 0 <= q < r && rows[q].readable ==> Decryptable(c, ring, rows[q].secrets)
      {
        if rows[r].readable && !Decryptable(c, ring, rows[r].secrets) {
          undecryptable := undecryptable + 1;
        }
      }
    }

    /** One row: re-encrypted if all of it can be and anything changes. */
    method RewriteRow(c: Crypto, ring: Ring, nonces: Nonces, r: nat) returns (ok: bool)
      requires r < |rows|
      modifies this
      ensures |rows| == |old(rows)| && rows == old(rows)[r := rows[r]] && Rewritten(c, ring, nonces, r, old(rows)[r], rows[r])
      ensures ok ==> FullyRewritten(c, ring, nonces, r, old(rows)[r], rows[r])
    {
      if !rows[r].readable {
        return true;
      }
      var after := ReencryptAll(c, ring, nonces, r, rows[r].secrets);
      if after.Some? && after.value != rows[r].secrets {
        ok := *;
        if ok {
          rows := rows[r := rows[r].(secrets := after.value)];
        }
      } else {
        ok := true;
      }
    }

    /** rewrite_all: an update that fails stops it; what it did so far stays. */
    method RewriteAll(c: Crypto, ring: Ring, nonces: Nonces) returns (ok: bool)
      modifies this
      ensures |rows| == |old(rows)|
      ensures forall r :: 0 <= r < |rows| ==> Rewritten(c, ring, nonces, r, old(rows)[r], rows[r])
      ensures ok ==> forall r :: 0 <= r < |rows| ==> FullyRewritten(c, ring, nonces, r, old(rows)[r], rows[r])
    {
      for r := 0 to |rows|
        invariant |rows| == |old(rows)|
        invariant forall q :: 0 <= q < r ==> FullyRewritten(c, ring, nonces, q, old(rows)[q], rows[q])
        invariant forall q :: r <= q < |rows| ==> rows[q] == old(rows)[q]
      {
        ok := RewriteRow(c, ring, nonces, r);
        if !ok {
          return;
        }
      }
      return true;
    }

    /**
     The backfill after the key state was advanced: `behind` if this node lacks the
     cluster's key, `stragglers` the live nodes that do. Giving up the old key
     (`freed`) is the last thing it does.
     */
    method BackfillSecrets(c: Crypto, ring: Ring, nonces: Nonces, behind: bool, stragglers: nat) returns (outcome: Outcome)
      requires Rewritable(c, ring, nonces, rows) && Distinct(ring.Keys())
      modifies this
      ensures |rows| == |old(rows)|
      ensures forall r :: 0 <= r < |rows| ==> SameMeaning(c, ring, old(rows)[r], rows[r])
      ensures outcome == Settled(true) ==> !behind && stragglers == 0 && Freed(c, ring, nonces, old(rows), rows)
    {
      var undecryptable := ProbeUndecryptable(c, ring);
      if behind || ring.primary.None? {
        return Settled(false);
      }
      if stragglers > 0 {
        return AwaitingCluster;
      }
      var ok := RewriteAll(c, ring, nonces);
      forall r | 0 <= r < |rows| ensures SameMeaning(c, ring, old(rows)[r], rows[r]) {
        RewrittenKeepsMeaning(c, ring, nonces, old(rows), r, rows[r]);
      }
      if !ok {
        return Failed;
      }
      if undecryptable > 0 {
        return Settled(false);
      }
      forall r | 0 <= r < |rows| && old(rows)[r].readable
        ensures SameToPrimary(c, ring, old(rows)[r], rows[r]) <==>
                Sealable(c, ring, nonces, r, old(rows)[r].secrets) || AlreadyFree(ring, old(rows)[r].secrets)
      {
        FreedIffSealableOrFree(c, ring, nonces, old(rows), r, rows[r]);
      }
      var cleared := *;
      return if cleared then Settled(true) else Failed;
    }

    /** The same for the ring the environment gives, whatever that is: its fingerprints are distinct. */
    method BackfillFromEnvironment(c: Crypto, trim: Bytes -> Bytes, key: Option<Bytes>, oldKeys: Option<Bytes>,
                                   nonces: Nonces, behind: bool, stragglers: nat)
      returns (parsed: Parsed<Ring>, outcome: Outcome)
      requires Rewritable(c, Ring(None, []), nonces, rows)
      modifies this
      ensures parsed.Bad? ==> rows == old(rows) && outcome.Failed?
      ensures |rows| == |old(rows)|
      ensures parsed.Good? ==> forall r :: 0 <= r < |rows| ==> SameMeaning(c, parsed.value, old(rows)[r], rows[r])
      ensures parsed.Good? && outcome == Settled(true) ==> Freed(c, parsed.value, nonces, old(rows), rows)
    {
      parsed := ParseEnvKeyring(c, trim, key, oldKeys);
      if parsed.Bad? {
        return parsed, Failed;
      }
      outcome := BackfillSecrets(c, parsed.value, nonces, behind, stragglers);
    }
  }
}
