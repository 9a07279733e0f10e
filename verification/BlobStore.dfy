// services/upload/blobstore.go: the client that turns one logical operation
// into S3 calls, any of which may fail before or after taking effect.
module BlobStores {
  import opened Basics
  import opened Tiling
  import opened ObjectStorage

  const COPY_PART_SIZE: int := 0x2000_0000
  const SINGLE_COPY_LIMIT: int := 0x1_4000_0000

  /** What a copy of `size` bytes from `src` writes: the whole object, or the ranges that tile [0,size). */
  function CopyContent(s: S3, src: Key, size: int): Option<Bytes>
  {
    if src !in s.objects then None
    else if size <= SINGLE_COPY_LIMIT then Some(s.objects[src])
    else if size <= |s.objects[src]| then Some(s.objects[src][..size])
    else None
  }

  /** The part list built so far names parts 1..k, each with the ETag of what was uploaded for it. */
  ghost predicate Listed(parts: seq<Part>, bodies: seq<Bytes>)
  {
    |parts| == |bodies|
    && forall i :: 0 <= i < |parts| ==> parts[i] == Part(i + 1, Md5(bodies[i]))
  }

  class BlobStore {
    var s3: S3
    var nextCopy: nat
    // Outcomes of the calls to come; a call beyond the script succeeds.
    var script: seq<Outcome>

    constructor (s3: S3)
      requires forall n :: OfCopy(n) !in s3.uploads
      ensures Valid() && this.s3 == s3 && script == []
    {
      this.s3, nextCopy, script := s3, 0, [];
    }

    /** Copy ids at or above nextCopy are unused: S3 mints a fresh id per multipart. */
    ghost predicate Valid()
      reads this
    {
      forall n: nat :: n >= nextCopy ==> OfCopy(n) !in s3.uploads
    }

    method Next() returns (o: Outcome)
      modifies this`script
      ensures o == if old(script) == [] then Succeeds else old(script)[0]
      ensures script == if old(script) == [] then [] else old(script)[1..]
    {
      if script == [] {
        return Succeeds;
      }
      o := script[0];
      script := script[1..];
    }

    method CompleteMultipart(id: UploadId, parts: seq<Part>) returns (ok: bool)
      modifies this`s3, this`script
      ensures ok ==> Accepts(old(s3), id, SortParts(parts))
      ensures old(script) == [] ==> ok == Accepts(old(s3), id, SortParts(parts))
      ensures s3 == Complete(old(s3), id, SortParts(parts)) || (!ok && s3 == old(s3))
    {
      var sorted := SortParts(parts);
      var o := Next();
      ok := o.Succeeds? && Accepts(s3, id, sorted);
      s3 := After(s3, Complete(s3, id, sorted), o);
    }

    method AbortMultipart(id: UploadId) returns (ok: bool)
      modifies this`s3, this`script
      ensures s3 == old(s3).(uploads := old(s3).uploads - {id}) || (!ok && s3 == old(s3))
    {
      var o := Next();
      ok := o.Succeeds?;
      s3 := After(s3, Abort(s3, id), o);
    }

    /**
     * Server-side copy. A successful copy leaves exactly the source bytes at
     * dst; a failed one leaves dst as it was or holding exactly those bytes.
     * Uploads of other sessions are never touched.
     */
    method Copy(src: Key, dst: Key, size: int) returns (ok: bool)
      requires Valid()
      modifies this
      ensures Valid()
      ensures ok ==> CopyContent(old(s3), src, size).Some?
                     && s3.objects == old(s3).objects[dst := CopyContent(old(s3), src, size).value]
      ensures !ok ==> s3.objects == old(s3).objects
                      || (CopyContent(old(s3), src, size).Some?
                          && s3.objects == old(s3).objects[dst := CopyContent(old(s3), src, size).value])
      ensures old(script) == [] ==> ok == CopyContent(old(s3), src, size).Some?
      ensures ok ==> src in old(s3).objects
      ensures src in old(s3).objects && size == |old(s3).objects[src]| ==>
        var copied := old(s3).objects[dst := old(s3).objects[src]];
        && (ok ==> s3.objects == copied) && (!ok ==> s3.objects == old(s3).objects || s3.objects == copied)
        && (old(script) == [] ==> ok)
      ensures forall id :: id in old(s3).uploads ==> id in s3.uploads && s3.uploads[id] == old(s3).uploads[id]
    {
      assert src in s3.objects && size == |s3.objects[src]| ==> s3.objects[src][..size] == s3.objects[src];
      if size <= SINGLE_COPY_LIMIT {
        var o := Next();
        ok := o.Succeeds? && src in s3.objects;
        if src in s3.objects {
          s3 := After(s3, Store(s3, dst, s3.objects[src]), o);
        }
        return;
      }
      ok := CopyRanges(src, dst, size);
    }

    /** One UploadPartCopy: stores source bytes [lo,hi) as the given part of an open upload. */
    method UploadPartCopy(id: UploadId, src: Key, number: int, lo: int, hi: int) returns (ok: bool)
      requires id in s3.uploads
      modifies this`s3, this`script
      ensures old(script) == [] ==> script == [] && ok == ReadRange(old(s3), src, lo, hi).Some?
      ensures ok ==> ReadRange(old(s3), src, lo, hi).Some?
                     && s3 == PutPart(old(s3), id, number, ReadRange(old(s3), src, lo, hi).value)
      ensures id in s3.uploads && s3.objects == old(s3).objects
      ensures s3.uploads == old(s3).uploads[id := s3.uploads[id]]
    {
      var range := ReadRange(s3, src, lo, hi);
      var o := Next();
      ok := o.Succeeds? && range.Some?;
      if range.Some? {
        s3 := After(s3, PutPart(s3, id, number, range.value), o);
      }
    }

    /** The range loop of the multipart branch. */
    method CopyParts(id: UploadId, src: Key, dst: Key, size: int)
      returns (ok: bool, parts: seq<Part>, ghost bodies: seq<Bytes>)
      requires id in s3.uploads && s3.uploads[id].key == dst && size > SINGLE_COPY_LIMIT
      modifies this`s3, this`script
      ensures id in s3.uploads && s3.objects == old(s3).objects
      ensures s3.uploads == old(s3).uploads[id := s3.uploads[id]]
      ensures ok ==> Copying(s3, id, old(s3), src, dst, size, size, parts, bodies)
      ensures old(script) == [] ==> script == [] && ok == CopyContent(old(s3), src, size).Some?
    {
      NothingCopied(s3, id, src, dst, size);
      hide Copying;
      parts, bodies := [], [];
      var partNumber := 1;
      var offset := 0;
      while offset < size
        invariant partNumber == |parts| + 1
        invariant Copying(s3, id, old(s3), src, dst, size, offset, parts, bodies)
        invariant old(script) == [] ==> script == []
      {
        var end := offset + COPY_PART_SIZE - 1;
        if end >= size {
          end := size - 1;
        }
        ghost var before := s3;
        ok := UploadPartCopy(id, src, partNumber, offset, end + 1);
        if !ok {
          return;
        }
        ghost var body := ReadRange(before, src, offset, end + 1).value;
        CopyingOneMore(before, id, old(s3), src, dst, size, offset, parts, bodies, body);
        parts := parts + [Part(partNumber, Md5(s3.uploads[id].parts[partNumber]))];
        bodies := bodies + [body];
        partNumber := partNumber + 1;
        offset := offset + COPY_PART_SIZE;
      }
      ok := true;
    }

    /** The multipart branch: copy [0,size) in ranges of COPY_PART_SIZE, then complete; abort on any failure. */
    method CopyRanges(src: Key, dst: Key, size: int) returns (ok: bool)
      requires Valid() && size > SINGLE_COPY_LIMIT
      modifies this
      ensures Valid()
      ensures ok ==> CopyContent(old(s3), src, size).Some?
                     && s3.objects == old(s3).objects[dst := CopyContent(old(s3), src, size).value]
      ensures !ok ==> s3.objects == old(s3).objects
                      || (CopyContent(old(s3), src, size).Some?
                          && s3.objects == old(s3).objects[dst := CopyContent(old(s3), src, size).value])
      ensures old(script) == [] ==> ok == CopyContent(old(s3), src, size).Some?
      ensures forall id :: id in old(s3).uploads ==> id in s3.uploads && s3.uploads[id] == old(s3).uploads[id]
    {
      var id := OfCopy(nextCopy);
      nextCopy := nextCopy + 1;
      var o := Next();
      s3 := After(s3, Begin(s3, id, dst), o);
      if !o.Succeeds? {
        return false;
      }
      hide Copying, CopyContent, Accepts;
      ghost var begun := s3;
      var parts;
      ghost var bodies;
      ok, parts, bodies := CopyParts(id, src, dst, size);
      if ok {
        CopiedWhole(s3, id, begun, src, dst, size, parts, bodies);
        ok := CompleteMultipart(id, parts);
      }
      if !ok {
        var aborted := AbortMultipart(id);
      }
    }
  }

  ghost predicate Stored(up: Upload, bodies: seq<Bytes>)
  {
    forall k :: 1 <= k <= |bodies| ==> k in up.parts && up.parts[k] == bodies[k - 1]
  }

  ghost predicate Copied(s: S3, src: Key, size: int, offset: int, bodies: seq<Bytes>)
  {
    && 0 <= offset
    && (offset == 0 ==> bodies == [])
    && (offset > 0 ==> src in s.objects && 0 <= Min(offset, size) <= |s.objects[src]|
                       && Concat(bodies) == s.objects[src][..Min(offset, size)])
  }

  /** Between ranges: the parts uploaded so far are exactly the first min(offset, size) source bytes. */
  ghost predicate Copying(s: S3, id: UploadId, was: S3, src: Key, dst: Key, size: int, offset: int,
                          parts: seq<Part>, bodies: seq<Bytes>)
  {
    && s.objects == was.objects
    && id in s.uploads
    && s.uploads == was.uploads[id := s.uploads[id]]
    && s.uploads[id].key == dst
    && Listed(parts, bodies) && Stored(s.uploads[id], bodies)
    && Copied(s, src, size, offset, bodies)
  }

  lemma NothingCopied(s: S3, id: UploadId, src: Key, dst: Key, size: int)
    requires id in s.uploads && s.uploads[id].key == dst
    ensures Copying(s, id, s, src, dst, size, 0, [], [])
  {
    assert s.uploads == s.uploads[id := s.uploads[id]];
  }

  /** One more range: the loop's next state continues the prefix by exactly that range. */
  lemma CopyingOneMore(s: S3, id: UploadId, was: S3, src: Key, dst: Key, size: int, offset: int,
                       parts: seq<Part>, bodies: seq<Bytes>, body: Bytes)
    requires Copying(s, id, was, src, dst, size, offset, parts, bodies) && offset < size
    requires ReadRange(s, src, offset, Min(offset + COPY_PART_SIZE, size)) == Some(body)
    ensures Copying(PutPart(s, id, |parts| + 1, body), id, was, src, dst, size, offset + COPY_PART_SIZE,
                    parts + [Part(|parts| + 1, Md5(body))], bodies + [body])
  {
    var t := PutPart(s, id, |parts| + 1, body);
    CopiedOneMore(s, src, size, offset, bodies, body);
    StoredOneMore(s.uploads[id], bodies, body);
    hide Copied, Stored;
    assert t.uploads == was.uploads[id := t.uploads[id]];
    SameSource(s, t, src, size, offset + COPY_PART_SIZE, bodies + [body]);
  }

  lemma SameSource(s: S3, t: S3, src: Key, size: int, offset: int, bodies: seq<Bytes>)
    requires Copied(s, src, size, offset, bodies) && s.objects == t.objects
    ensures Copied(t, src, size, offset, bodies)
  {
  }

  lemma CopiedOneMore(s: S3, src: Key, size: int, offset: int, bodies: seq<Bytes>, body: Bytes)
    requires Copied(s, src, size, offset, bodies) && offset < size
    requires ReadRange(s, src, offset, Min(offset + COPY_PART_SIZE, size)) == Some(body)
    ensures Copied(s, src, size, offset + COPY_PART_SIZE, bodies + [body])
  {
    assert (bodies + [body])[..|bodies|] == bodies;
    assert Concat(bodies + [body]) == Concat(bodies) + body;
  }

  lemma StoredOneMore(up: Upload, bodies: seq<Bytes>, body: Bytes)
    requires Stored(up, bodies)
    ensures Stored(up.(parts := up.parts[|bodies| + 1 := body]), bodies + [body])
  {
  }

  /** The list 1..k built by the loop is accepted as it stands and assembles the bodies in loop order. */
  lemma ListedIsAccepted(s: S3, id: UploadId, parts: seq<Part>, bodies: seq<Bytes>)
    requires id in s.uploads && Listed(parts, bodies) && Stored(s.uploads[id], bodies)
    ensures SortParts(parts) == parts && Accepts(s, id, parts)
    ensures PartBodies(s.uploads[id], parts) == bodies
  {
    SortPartsOfAscending(parts);
  }

  /** Once the ranges reach the size, completing the upload writes exactly the content to be copied. */
  lemma CopiedWhole(s: S3, id: UploadId, was: S3, src: Key, dst: Key, size: int, parts: seq<Part>, bodies: seq<Bytes>)
    requires Copying(s, id, was, src, dst, size, size, parts, bodies) && size > SINGLE_COPY_LIMIT
    ensures Accepts(s, id, SortParts(parts)) && CopyContent(was, src, size).Some?
    ensures Complete(s, id, SortParts(parts))
         == S3(s.uploads - {id}, was.objects[dst := CopyContent(was, src, size).value])
  {
    ListedIsAccepted(s, id, parts, bodies);
  }
}
