// S3 as the upload service sees it: objects, open multipart uploads, and the
// effect of each call. Any call may fail before or after it takes effect.
module ObjectStorage {
  import opened Basics
  import opened Tiling

  /** SHA-256 idealised as an injective function of the content. */
  datatype Digest = Sha256(content: Bytes)

  /** S3 ETag of a part: determined by the part's content. */
  datatype ETag = Md5(content: Bytes)

  /** "staging/<session>" and "assets/<workspace>/sha256/<hex>". */
  datatype Key = Staging(sid: nat) | Asset(ws: string, sha: Digest)

  datatype UploadId = OfSession(sid: nat) | OfCopy(n: nat)
  datatype Upload = Upload(key: Key, parts: map<int, Bytes>)
  datatype Part = Part(number: int, etag: ETag)
  datatype S3 = S3(uploads: map<UploadId, Upload>, objects: map<Key, Bytes>)

  /** State after a call whose effect is `done`: a call that fails before leaves `s` as it was. */
  function After<S>(s: S, done: S, o: Outcome): S
  {
    if o.FailsBefore? then s else done
  }

  function Begin(s: S3, id: UploadId, key: Key): S3
  {
    s.(uploads := s.uploads[id := Upload(key, map[])])
  }

  function PutPart(s: S3, id: UploadId, number: int, body: Bytes): S3
  {
    if id in s.uploads then
      var up := s.uploads[id];
      s.(uploads := s.uploads[id := up.(parts := up.parts[number := body])])
    else s
  }

  function Abort(s: S3, id: UploadId): S3
  {
    s.(uploads := s.uploads - {id})
  }

  predicate Ascending(parts: seq<Part>)
  {
    forall i, j :: 0 <= i < j < |parts| ==> parts[i].number < parts[j].number
  }

  /** S3 accepts a completion whose listed parts are all stored under the listed ETag, in ascending order. */
  predicate Accepts(s: S3, id: UploadId, parts: seq<Part>)
  {
    && id in s.uploads
    && Ascending(parts)
    && forall p :: p in parts ==>
         p.number in s.uploads[id].parts && Md5(s.uploads[id].parts[p.number]) == p.etag
  }

  function PartBodies(up: Upload, parts: seq<Part>): seq<Bytes>
    requires forall p :: p in parts ==> p.number in up.parts
  {
    seq(|parts|, i requires 0 <= i < |parts| => up.parts[parts[i].number])
  }

  /** Completion writes the object and consumes the upload id. */
  function Complete(s: S3, id: UploadId, parts: seq<Part>): S3
  {
    if Accepts(s, id, parts) then
      var up := s.uploads[id];
      S3(s.uploads - {id}, s.objects[up.key := Concat(PartBodies(up, parts))])
    else s
  }

  function Store(s: S3, key: Key, body: Bytes): S3
  {
    s.(objects := s.objects[key := body])
  }

  function Remove(s: S3, key: Key): S3
  {
    s.(objects := s.objects - {key})
  }

  /** The bytes a ranged read returns; S3 refuses a range past the end. */
  function ReadRange(s: S3, key: Key, lo: int, hi: int): Option<Bytes>
  {
    if key in s.objects && 0 <= lo <= hi <= |s.objects[key]| then Some(s.objects[key][lo..hi]) else None
  }

  // ---- the part list handed to S3 is sorted first ----

  function Insert(p: Part, parts: seq<Part>): seq<Part>
  {
    if parts == [] || p.number < parts[0].number then [p] + parts else [parts[0]] + Insert(p, parts[1..])
  }

  /** The list sorted by part number. */
  function SortParts(parts: seq<Part>): seq<Part>
  {
    if parts == [] then [] else Insert(parts[0], SortParts(parts[1..]))
  }

  predicate DistinctNumbers(parts: seq<Part>)
  {
    forall i, j :: 0 <= i < j < |parts| ==> parts[i].number != parts[j].number
  }

  ghost predicate SameParts(a: seq<Part>, b: seq<Part>)
  {
    forall p :: p in a <==> p in b
  }

  lemma {:induction false} InsertSpec(p: Part, parts: seq<Part>)
    requires Ascending(parts) && forall q :: q in parts ==> q.number != p.number
    ensures Ascending(Insert(p, parts))
    ensures forall q :: q in Insert(p, parts) <==> q == p || q in parts
  {
    if parts == [] || p.number < parts[0].number {
    } else {
      assert parts == [parts[0]] + parts[1..];
      InsertSpec(p, parts[1..]);
      forall q | q in Insert(p, parts[1..]) ensures parts[0].number < q.number {
      }
    }
  }

  /** Sorting distinct part numbers yields the ascending arrangement of the same parts. */
  lemma {:induction false} SortPartsSpec(parts: seq<Part>)
    requires DistinctNumbers(parts)
    ensures Ascending(SortParts(parts)) && SameParts(SortParts(parts), parts)
  {
    if parts != [] {
      assert parts == [parts[0]] + parts[1..];
      SortPartsSpec(parts[1..]);
      InsertSpec(parts[0], SortParts(parts[1..]));
    }
  }

  /** Two ascending arrangements of the same parts are the same list. */
  lemma {:induction false} AscendingUnique(a: seq<Part>, b: seq<Part>)
    requires Ascending(a) && Ascending(b) && SameParts(a, b)
    ensures a == b
  {
    assert |a| > 0 ==> a[0] in a;
    assert |b| > 0 ==> b[0] in b;
    if a != [] {
      assert a[0] in b && b[0] in a;
      assert a[0] == b[0];
      forall p ensures p in a[1..] <==> p in b[1..] {
        TailMembers(a, p);
        TailMembers(b, p);
      }
      AscendingUnique(a[1..], b[1..]);
    }
  }

  lemma TailMembers(a: seq<Part>, p: Part)
    requires a != [] && Ascending(a)
    ensures p in a[1..] <==> p in a && p != a[0]
  {
    if p in a && p != a[0] {
      var i :| 0 <= i < |a| && a[i] == p;
      assert a[1..][i - 1] == p;
    }
  }

  lemma SortPartsOfAscending(parts: seq<Part>)
    requires Ascending(parts)
    ensures SortParts(parts) == parts
  {
    SortPartsSpec(parts);
    AscendingUnique(SortParts(parts), parts);
  }

  /** CompleteMultipart reaches the same storage state whatever order the caller lists the parts in. */
  lemma CompletionIgnoresPartOrder(s: S3, id: UploadId, a: seq<Part>, b: seq<Part>)
    requires DistinctNumbers(a) && DistinctNumbers(b) && SameParts(a, b)
    ensures Complete(s, id, SortParts(a)) == Complete(s, id, SortParts(b))
  {
    SortPartsSpec(a);
    SortPartsSpec(b);
    AscendingUnique(SortParts(a), SortParts(b));
  }
}
