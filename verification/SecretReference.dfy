/** Secret references, `secret://backend/mount/path#field`: parsing, printing, and what is stored. */
module SecretReference {
  import opened Prelude
  import opened Text

  const SCHEME := "secret://"

  datatype SecretRef = SecretRef(backend: string, mount: string, path: string, field: string)

  datatype Error = InvalidRef(raw: string) | InvalidBackendName(name: string)

  datatype Result<T> = Ok(value: T) | Err(error: Error)

  function KvPath(r: SecretRef): string {
    r.mount + ['/'] + r.path
  }

  function Place(r: SecretRef): string {
    KvPath(r) + ['#'] + r.field
  }

  function Body(r: SecretRef): string {
    r.backend + ['/'] + Place(r)
  }

  /** Display: `secret://backend/mount/path#field`. */
  function Print(r: SecretRef): string {
    SCHEME + Body(r)
  }

  /** Unicode general category Cc. */
  predicate IsControl(c: char) {
    c as int < 0x20 || 0x7f <= c as int < 0xa0
  }

  predicate IsValidKvSegment(seg: string) {
    && seg != "" && seg != "." && seg != ".."
    && forall i :: 0 <= i < |seg| ==> !IsControl(seg[i]) && seg[i] !in {'\\', '?', '%', '#'}
  }

  predicate IsBackendChar(c: char) {
    'a' <= c <= 'z' || 'A' <= c <= 'Z' || '0' <= c <= '9' || c in {'.', '_', '-'}
  }

  predicate IsBackendName(name: string) {
    name != "" && forall i :: 0 <= i < |name| ==> IsBackendChar(name[i])
  }

  predicate AllSegmentsValid(path: string) {
    forall i :: 0 <= i < |Split(path, '/')| ==> IsValidKvSegment(Split(path, '/')[i])
  }

  /** FromStr. */
  function Parse(s: string): Result<SecretRef> {
    if !(SCHEME <= s) then Err(InvalidRef(s))
    else match SplitOnce(s[|SCHEME|..], '/')
      case None => Err(InvalidRef(s))
      case Some((backend, rest)) =>
        if !IsBackendName(backend) then Err(InvalidBackendName(backend))
        else match SplitOnce(rest, '#')
          case None => Err(InvalidRef(s))
          case Some((kvPath, field)) =>
            match SplitOnce(kvPath, '/')
            case None => Err(InvalidRef(s))
            case Some((mount, path)) =>
              if !IsValidKvSegment(mount) || !AllSegmentsValid(path) || field == "" then Err(InvalidRef(s))
              else Ok(SecretRef(backend, mount, path, field))
  }

  /** What a reference that parses is made of. */
  predicate WellFormed(r: SecretRef) {
    IsBackendName(r.backend) && '/' !in r.mount && IsValidKvSegment(r.mount) && AllSegmentsValid(r.path) && r.field != ""
  }

  /** Printing an accepted reference returns the string it was parsed from. */
  lemma PrintUndoesParse(s: string)
    requires Parse(s).Ok?
    ensures Print(Parse(s).value) == s && WellFormed(Parse(s).value)
  {
    assert s == SCHEME + s[|SCHEME|..];
    var (backend, rest) := SplitOnce(s[|SCHEME|..], '/').value;
    var (kvPath, field) := SplitOnce(rest, '#').value;
    assert kvPath == KvPath(Parse(s).value) && rest == Place(Parse(s).value);
  }

  lemma {:induction false} JoinOfParts(parts: seq<string>, c: char)
    requires c != '/' && forall i :: 0 <= i < |parts| ==> c !in parts[i]
    ensures c !in Join(parts, '/')
  {
    if |parts| > 1 {
      JoinOfParts(parts[1..], c);
    }
  }

  lemma ValidPathHasNoHash(path: string)
    requires AllSegmentsValid(path)
    ensures '#' !in path
  {
    JoinOfParts(Split(path, '/'), '#');
    JoinSplit(path, '/');
  }

  /** Parsing the print of a well-formed reference returns it, whatever its field contains. */
  lemma ParseUndoesPrint(r: SecretRef)
    requires WellFormed(r)
    ensures Parse(Print(r)) == Ok(r)
  {
    ValidPathHasNoHash(r.path);
    assert '/' !in r.backend && '#' !in KvPath(r);
    SplitOnceAt(r.backend, '/', Place(r));
    SplitOnceAt(KvPath(r), '#', r.field);
    SplitOnceAt(r.mount, '/', r.path);
    assert Print(r)[|SCHEME|..] == Body(r);
  }

  /** A reference is accepted exactly if it is the print of a well-formed one. */
  lemma ParsesIffPrinted(s: string)
    ensures Parse(s).Ok? <==> exists r :: WellFormed(r) && Print(r) == s
  {
    if Parse(s).Ok? {
      PrintUndoesParse(s);
    } else if r :| WellFormed(r) && Print(r) == s {
      ParseUndoesPrint(r);
      assert false;
    }
  }

  /** No two references print alike. */
  lemma PrintIsInjective(q: SecretRef, r: SecretRef)
    requires WellFormed(q) && WellFormed(r) && Print(q) == Print(r)
    ensures q == r
  {
    ParseUndoesPrint(q);
    ParseUndoesPrint(r);
  }

  // ----- Stored values -----

  /** An inline value is held as stored; encryption is elsewhere. */
  datatype MaybeSecretRef = Inline(stored: string) | Reference(ref: SecretRef) | Malformed(raw: string)

  function FromStr(s: string): Result<MaybeSecretRef> {
    if SCHEME <= s then
      match Parse(s)
      case Ok(r) => Ok(Reference(r))
      case Err(e) => Err(e)
    else Ok(Inline(s))
  }

  function FromStored(s: string): MaybeSecretRef {
    match FromStr(s)
    case Ok(v) => v
    case Err(_) => Malformed(s)
  }

  function AsString(v: MaybeSecretRef): string {
    match v
    case Inline(stored) => stored
    case Reference(r) => Print(r)
    case Malformed(raw) => raw
  }

  /** Loading and saving leaves every string as it was, malformed references included. */
  lemma AsStringUndoesFromStored(s: string)
    ensures AsString(FromStored(s)) == s
  {
    if SCHEME <= s && Parse(s).Ok? {
      PrintUndoesParse(s);
    }
  }

  /** What the loader can have produced. */
  predicate Loadable(v: MaybeSecretRef) {
    match v
    case Inline(stored) => !(SCHEME <= stored)
    case Reference(r) => WellFormed(r)
    case Malformed(raw) => SCHEME <= raw && Parse(raw).Err?
  }

  /** Saving and loading returns the value exactly if it is one the loader can produce. */
  lemma SavedValueLoadsIffLoadable(v: MaybeSecretRef)
    ensures FromStored(AsString(v)) == v <==> Loadable(v)
  {
    if v.Reference? {
      if WellFormed(v.ref) {
        ParseUndoesPrint(v.ref);
        assert SCHEME <= Print(v.ref);
      } else if Parse(Print(v.ref)).Ok? {
        PrintUndoesParse(Print(v.ref));
      }
    }
  }
}
