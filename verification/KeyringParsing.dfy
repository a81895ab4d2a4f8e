/** Reading the key ring from the environment variables. */
module KeyringParsing {
  import opened Prelude
  import opened Text
  import opened Base64
  import opened Encryption
  import opened Keyring

  /** Which variable a parse failure blames. */
  datatype Variable = Primary | Old
  datatype Parsed<T> = Good(value: T) | Bad(variable: Variable)

  /** A key is the base 64 of exactly 32 bytes. */
  function ParseKey(c: Crypto, raw: Bytes): Option<MasterKey>
    requires Sound(c)
  {
    match Decode(raw)
    case None => None
    case Some(key) => if |key| == KEY_LEN then Some(NewKey(c, key)) else None
  }

  predicate BadItem(c: Crypto, raw: Bytes)
    requires Sound(c)
  {
    raw != [] && ParseKey(c, raw).None?
  }

  /** The ring holds `k`'s fingerprint. */
  predicate Known(ring: Ring, k: MasterKey) { Matches(ring.Keys(), k.fingerprint) }

  /** What the retired list is, of the items read so far. */
  ghost predicate RetiredFrom(c: Crypto, ring: Ring, items: seq<Bytes>)
    requires Sound(c)
  {
    && (forall i :: 0 <= i < |items| && items[i] != [] ==> ParseKey(c, items[i]).Some? && Known(ring, ParseKey(c, items[i]).value))
    && (forall k :: k in ring.retired ==> exists i :: 0 <= i < |items| && items[i] != [] && ParseKey(c, items[i]) == Some(k))
  }

  lemma Pushed(ring: Ring, k: MasterKey)
    requires Distinct(ring.Keys()) && AllUsable(ring.Keys()) && Usable(k) && !Known(ring, k)
    ensures var ring' := ring.(retired := ring.retired + [k]);
            && Distinct(ring'.Keys()) && AllUsable(ring'.Keys()) && Known(ring', k)
            && forall x :: Known(ring, x) ==> Known(ring', x)
  {
    var keys, keys' := ring.Keys(), ring.(retired := ring.retired + [k]).Keys();
    assert keys' == keys + [k];
    assert keys'[|keys|] == k;
    forall x | Known(ring, x) ensures Matches(keys', x.fingerprint) {
      var i :| 0 <= i < |keys| && keys[i].fingerprint == x.fingerprint;
      assert keys'[i].fingerprint == x.fingerprint;
    }
  }

  /** The ring after one more item of the list. */
  function WithItem(c: Crypto, ring: Ring, raw: Bytes): Ring
    requires Sound(c) && !BadItem(c, raw)
  {
    if raw == [] || Known(ring, ParseKey(c, raw).value) then ring
    else ring.(retired := ring.retired + [ParseKey(c, raw).value])
  }

  lemma ItemRead(c: Crypto, ring: Ring, items: seq<Bytes>, raw: Bytes)
    requires Sound(c) && Distinct(ring.Keys()) && AllUsable(ring.Keys()) && RetiredFrom(c, ring, items) && !BadItem(c, raw)
    ensures var ring' := WithItem(c, ring, raw);
            Distinct(ring'.Keys()) && AllUsable(ring'.Keys()) && RetiredFrom(c, ring', items + [raw])
  {
    var ring', items' := WithItem(c, ring, raw), items + [raw];
    if ring' != ring {
      Pushed(ring, ParseKey(c, raw).value);
    }
    forall k | k in ring'.retired ensures exists i :: 0 <= i < |items'| && items'[i] != [] && ParseKey(c, items'[i]) == Some(k) {
      if k in ring.retired {
        var i :| 0 <= i < |items| && items[i] != [] && ParseKey(c, items[i]) == Some(k);
        assert items'[i] == items[i];
      } else {
        assert items'[|items|] == raw;
      }
    }
  }

  /** The loop over WARPGATE_ENCRYPTION_KEY_OLD. */
  method ParseRetired(c: Crypto, primary: Option<MasterKey>, items: seq<Bytes>) returns (r: Parsed<Ring>)
    requires Sound(c) && (primary.Some? ==> Usable(primary.value))
    ensures match r
            case Bad(v) => v == Old && exists i :: 0 <= i < |items| && BadItem(c, items[i])
            case Good(ring) =>
              Distinct(ring.Keys()) && AllUsable(ring.Keys()) && ring.primary == primary && RetiredFrom(c, ring, items)
  {
    var ring := Ring(primary, []);
    for i := 0 to |items|
      invariant Distinct(ring.Keys()) && AllUsable(ring.Keys()) && ring.primary == primary
      invariant RetiredFrom(c, ring, items[..i])
    {
      assert items[..i + 1] == items[..i] + [items[i]];
      if BadItem(c, items[i]) {
        return Bad(Old);
      }
      ItemRead(c, ring, items[..i], items[i]);
      if items[i] != [] {
        var key := ParseKey(c, items[i]).value;
        if !Known(ring, key) {
          ring := ring.(retired := ring.retired + [key]);
        }
      }
    }
    assert items[..|items|] == items;
    return Good(ring);
  }

  /**
   parse_env_keyring. `trim` is whatever trimming the platform does; blank items are
   skipped, and a key whose fingerprint the ring already holds is dropped, so the
   fingerprints of the ring it returns are pairwise distinct.
   */
  method ParseEnvKeyring(c: Crypto, trim: Bytes -> Bytes, primary: Option<Bytes>, retired: Option<Bytes>) returns (r: Parsed<Ring>)
    requires Sound(c)
    ensures var raw, items := if primary.Some? then trim(primary.value) else [], Items(trim, retired);
            match r
            case Bad(Primary) => BadItem(c, raw)
            case Bad(Old) => !BadItem(c, raw) && exists i :: 0 <= i < |items| && BadItem(c, items[i])
            case Good(ring) =>
              && Distinct(ring.Keys()) && AllUsable(ring.Keys())
              && !BadItem(c, raw) && ring.primary == (if raw == [] then None else ParseKey(c, raw))
              && RetiredFrom(c, ring, items)
  {
    var key := None;
    if primary.Some? && trim(primary.value) != [] {
      key := ParseKey(c, trim(primary.value));
      if key.None? {
        return Bad(Primary);
      }
    }
    r := ParseRetired(c, key, Items(trim, retired));
  }

  /** The trimmed items of the comma-separated list. */
  function Items(trim: Bytes -> Bytes, list: Option<Bytes>): seq<Bytes> {
    var parts := Split(if list.Some? then list.value else [], COMMA);
    seq(|parts|, i requires 0 <= i < |parts| => trim(parts[i]))
  }
}
