/** The streaming multipart upload of a recording: bytes are buffered and sent in parts of a fixed size. */
module Multipart {
  import opened Prelude
  import opened Base64

  const PART_SIZE := 5 * 1024 * 1024

  /** The parts numbered 1 to n, put together. */
  function Assembled(stored: map<int, Bytes>, n: nat): Bytes
    requires forall i :: 1 <= i <= n ==> i in stored
  {
    if n == 0 then [] else Assembled(stored, n - 1) + stored[n]
  }

  lemma {:induction false} AssembledIgnoresLater(stored: map<int, Bytes>, m: int, part: Bytes, n: nat)
    requires n < m && forall i :: 1 <= i <= n ==> i in stored
    ensures Assembled(stored[m := part], n) == Assembled(stored, n)
  {
    if n > 0 {
      AssembledIgnoresLater(stored, m, part, n - 1);
    }
  }

  lemma {:induction false} AssembledLength(stored: map<int, Bytes>, n: nat)
    requires forall i :: 1 <= i <= n ==> i in stored && |stored[i]| == PART_SIZE
    ensures |Assembled(stored, n)| == n * PART_SIZE
  {
    if n > 0 {
      AssembledLength(stored, n - 1);
    }
  }

  /** What S3 makes of a list of parts. */
  function Object(stored: map<int, Bytes>, parts: seq<int>): Bytes
    requires forall i :: 0 <= i < |parts| ==> parts[i] in stored
  {
    if parts == [] then [] else Object(stored, parts[..|parts| - 1]) + stored[parts[|parts| - 1]]
  }

  predicate Consecutive(parts: seq<int>) {
    forall i :: 0 <= i < |parts| ==> parts[i] == i + 1
  }

  lemma {:induction false} ConsecutivePartsAssemble(stored: map<int, Bytes>, parts: seq<int>)
    requires Consecutive(parts) && forall i :: 1 <= i <= |parts| ==> i in stored
    ensures Object(stored, parts) == Assembled(stored, |parts|)
    decreases |parts|
  {
    if parts != [] {
      ConsecutivePartsAssemble(stored, parts[..|parts| - 1]);
    }
  }

  /** How a byte string of this length is to be cut: full parts, then a rest that is empty only for the empty upload. */
  predicate WellCut(stored: map<int, Bytes>, n: nat, length: nat)
    requires forall i :: 1 <= i <= n ==> i in stored
  {
    && n >= 1 && (forall i :: 1 <= i < n ==> |stored[i]| == PART_SIZE)
    && |stored[n]| == length - (n - 1) * PART_SIZE <= PART_SIZE && (|stored[n]| == 0 ==> length == 0)
  }

  class Upload {
    var buf: Bytes
    var partNumber: int
    var parts: seq<int>
    /** S3's side: the parts it holds, the finished object, and whether an abort was sent. */
    var stored: map<int, Bytes>
    var result: Option<Bytes>
    var abortSent: bool
    /** Everything pushed so far, and whether some part's upload failed. */
    ghost var pushed: Bytes
    ghost var lost: bool

    constructor ()
      ensures Valid() && pushed == [] && !lost && result.None? && !abortSent
    {
      buf, partNumber, parts, stored, result, abortSent := [], 0, [], map[], None, false;
      pushed, lost := [], false;
    }

    /** Every part but the rest in the buffer has arrived whole. */
    ghost predicate Whole()
      reads this
    {
      && partNumber == |parts| && Consecutive(parts)
      && (forall i :: 1 <= i <= |parts| ==> i in stored && |stored[i]| == PART_SIZE)
      && Assembled(stored, |parts|) + buf == pushed
    }

    ghost predicate Valid()
      reads this
    {
      if lost then |parts| < partNumber else Whole() && |buf| < PART_SIZE
    }

    /** upload_part numbers the part first and records it last; S3 may have kept a part it did not confirm. */
    method UploadPart(chunk: Bytes) returns (ok: bool)
      requires lost ==> |parts| < partNumber
      requires !lost ==> partNumber == |parts| && Consecutive(parts)
      modifies `partNumber, `parts, `stored, `lost
      ensures partNumber == old(partNumber) + 1 && lost == (old(lost) || !ok)
      ensures lost ==> |parts| < partNumber
      ensures ok ==> parts == old(parts) + [partNumber] && stored == old(stored)[partNumber := chunk]
    {
      partNumber := partNumber + 1;
      ok := *;
      var kept := *;
      if ok || kept {
        stored := stored[partNumber := chunk];
      }
      if ok {
        parts := parts + [partNumber];
      } else {
        lost := true;
      }
    }

    /** A full part leaves the buffer and arrives, or the upload is lost. */
    method UploadFull() returns (ok: bool)
      requires |buf| >= PART_SIZE && if lost then |parts| < partNumber else Whole()
      modifies `buf, `partNumber, `parts, `stored, `lost
      ensures buf == old(buf)[PART_SIZE..] && lost == (old(lost) || !ok)
      ensures if lost then |parts| < partNumber else Whole()
    {
      var chunk := buf[..PART_SIZE];
      assert chunk + buf[PART_SIZE..] == buf;
      buf := buf[PART_SIZE..];
      ok := UploadPart(chunk);
      if !lost {
        AssembledIgnoresLater(old(stored), partNumber, chunk, |old(parts)|);
        assert Assembled(stored, |parts|) + buf == Assembled(old(stored), |old(parts)|) + (chunk + buf);
      }
    }

    method Push(data: Bytes) returns (ok: bool)
      requires Valid()
      modifies `buf, `partNumber, `parts, `stored, `lost, `pushed
      ensures Valid() && pushed == old(pushed) + data && lost == (old(lost) || !ok)
    {
      buf := buf + data;
      pushed := pushed + data;
      assert !lost ==> Assembled(stored, |parts|) + buf == Assembled(stored, |parts|) + old(buf) + data;
      ok := true;
      while |buf| >= PART_SIZE
        invariant if lost then |parts| < partNumber else Whole()
        invariant ok && lost == old(lost) && pushed == old(pushed) + data
        decreases |buf|
      {
        ok := UploadFull();
        if !ok {
          return;
        }
      }
    }

    /** The rest of the buffer; an upload without parts gets one even if it is empty. */
    method FlushRest() returns (ok: bool)
      requires !lost && Valid()
      modifies `buf, `partNumber, `parts, `stored, `lost
      ensures ok ==> && Consecutive(parts) && (forall i :: 1 <= i <= |parts| ==> i in stored)
                     && Assembled(stored, |parts|) == pushed && WellCut(stored, |parts|, |pushed|)
    {
      AssembledLength(stored, |parts|);
      if buf == [] && parts != [] {
        assert Assembled(stored, |parts|) == pushed;
        return true;
      }
      var chunk := buf;
      buf := [];
      ok := UploadPart(chunk);
      if ok {
        AssembledIgnoresLater(old(stored), partNumber, chunk, |old(parts)|);
      }
    }

    /** try_finish: a part that never arrived shows as a shortfall. */
    method TryFinish() returns (ok: bool)
      requires Valid() && result.None?
      modifies `buf, `partNumber, `parts, `stored, `lost, `result
      ensures ok ==> && Consecutive(parts) && (forall i :: 1 <= i <= |parts| ==> i in stored)
                     && result == Some(pushed) && result == Some(Object(stored, parts)) && WellCut(stored, |parts|, |pushed|)
      ensures old(lost) ==> !ok
    {
      if |parts| < partNumber {
        return false;
      }
      ok := FlushRest();
      if !ok {
        return;
      }
      ConsecutivePartsAssemble(stored, parts);
      ok := *;
      var kept := *;
      if ok || kept {
        result := Some(Object(stored, parts));
      }
    }

    /** finish: the object is what was pushed, or an error and an abort. */
    method Finish() returns (ok: bool)
      requires Valid() && result.None?
      modifies `buf, `partNumber, `parts, `stored, `lost, `result, `abortSent
      ensures ok ==> && Consecutive(parts) && (forall i :: 1 <= i <= |parts| ==> i in stored)
                     && result == Some(pushed) && result == Some(Object(stored, parts)) && WellCut(stored, |parts|, |pushed|)
      ensures old(lost) ==> !ok
      ensures !ok ==> abortSent
    {
      ok := TryFinish();
      if !ok {
        abortSent := true;
      }
    }
  }
}
