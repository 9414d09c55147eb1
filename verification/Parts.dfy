/** Multipart arithmetic and part lists (`internal/media/service.go`, `upload_policy.go`,
    `internal/storage/storage.go` and `local.go`). */
module Parts {
  import opened Prelude
  import opened Greedy
  import opened Sorting

  type Bytes = seq<int>

  const MAX_PARTS := 10000

  // ---- Part sizes ---------------------------------------------------------------------

  /** How many parts CreateUpload plans. */
  function PartCount(size: int, partSize: int): int
    requires partSize > 0
  {
    (size + partSize - 1) / partSize
  }

  /** The size `validPartDescriptor` demands of a part. */
  function ExpectedSize(size: int, partSize: int, count: int, number: int): int {
    if number == count then size - (count - 1) * partSize else partSize
  }

  function PlannedTotal(size: int, partSize: int, count: int, upTo: nat): int {
    if upTo == 0 then 0 else PlannedTotal(size, partSize, count, upTo - 1) + ExpectedSize(size, partSize, count, upTo)
  }

  lemma {:induction false} FullParts(size: int, partSize: int, count: int, upTo: nat)
    requires upTo < count
    ensures PlannedTotal(size, partSize, count, upTo) == upTo * partSize
  {
    if upTo > 0 { FullParts(size, partSize, count, upTo - 1); }
  }

  /** The parts accepted for an upload add up to the declared size, and every one of them is
      a real part: not empty and not larger than the part size. */
  lemma PartsAddUp(size: int, partSize: int)
    requires size > 0 && partSize > 0
    ensures
      var count := PartCount(size, partSize);
      && count >= 1
      && PlannedTotal(size, partSize, count, count) == size
      && forall n :: 1 <= n <= count ==> 0 < ExpectedSize(size, partSize, count, n) <= partSize
  {
    var count := PartCount(size, partSize);
    CountBounds(size, partSize);
    FullParts(size, partSize, count, count - 1);
  }

  lemma CountBounds(size: int, partSize: int)
    requires size > 0 && partSize > 0
    ensures PartCount(size, partSize) >= 1
    ensures (PartCount(size, partSize) - 1) * partSize < size <= PartCount(size, partSize) * partSize
  {
    var count, rest := (size + partSize - 1) / partSize, (size + partSize - 1) % partSize;
    assert size + partSize - 1 == count * partSize + rest;
    assert count < 1 ==> count * partSize <= 0;
  }

  // ---- Lists of completed parts -------------------------------------------------------

  /** A checksum as it is sent: none, a hexadecimal one, or anything else. */
  datatype Checksum = NoChecksum | Sha256(value: int) | Malformed

  datatype CompletedPart = CompletedPart(number: int, etag: string, sha256: Checksum)

  predicate Increasing(parts: seq<CompletedPart>) { forall i, j :: 0 <= i < j < |parts| ==> parts[i].number < parts[j].number }

  /** The loop of CompleteUpload over the listed parts. */
  method CheckParts(listed: seq<CompletedPart>, count: nat) returns (valid: bool)
    ensures valid <==>
      && |listed| == count && (forall i, j :: 0 <= i < j < |listed| ==> listed[i].number != listed[j].number)
      && forall i :: 0 <= i < |listed| ==> 1 <= listed[i].number <= count && listed[i].etag != "" && listed[i].sha256 != Malformed
  {
    if |listed| != count {
      return false;
    }
    var seen: set<int> := {};
    for i := 0 to |listed|
      invariant seen == set j | 0 <= j < i :: listed[j].number
      invariant forall j :: 0 <= j < i ==> Listable(listed[j], count)
      invariant forall j, k :: 0 <= j < k < i ==> listed[j].number != listed[k].number
    {
      var part := listed[i];
      if part.number < 1 || part.number > count || part.number in seen || part.etag == "" || part.sha256 == Malformed {
        return false;
      }
      seen := seen + {part.number};
    }
    return true;
  }

  lemma {:induction false} Pigeonhole(parts: seq<CompletedPart>, low: int, k: nat)
    requires Increasing(parts) && k < |parts|
    requires forall i :: 0 <= i < |parts| ==> low <= parts[i].number
    ensures parts[k].number >= low + k
  {
    if k > 0 { Pigeonhole(parts, low, k - 1); }
  }

  lemma {:induction false} PigeonholeAbove(parts: seq<CompletedPart>, high: int, k: nat)
    requires Increasing(parts) && k < |parts|
    requires forall i :: 0 <= i < |parts| ==> parts[i].number <= high
    ensures parts[k].number <= high - (|parts| - 1 - k)
    decreases |parts| - k
  {
    if k < |parts| - 1 { PigeonholeAbove(parts, high, k + 1); }
  }

  predicate ByNumber(a: CompletedPart, b: CompletedPart) { a.number < b.number }

  predicate Listable(part: CompletedPart, most: nat) { 1 <= part.number <= most && part.etag != "" && part.sha256 != Malformed }

  predicate DistinctNumbers(parts: seq<CompletedPart>) {
    forall i, j :: 0 <= i < j < |parts| ==> parts[i].number != parts[j].number
  }

  lemma DistinctNumbersPermuted(a: seq<CompletedPart>, b: seq<CompletedPart>)
    requires multiset(a) == multiset(b) && DistinctNumbers(a)
    ensures DistinctNumbers(b)
  {
    forall i, j | 0 <= i < j < |b| ensures b[i].number != b[j].number {
      assert b[i] in multiset(b) && b[j] in multiset(b);
      assert b[i] in a && b[j] in a;
      if b[i] == b[j] {
        TwiceCounts(b, i, j);
        DistinctCounts(a, b[i]);
      }
    }
  }

  /** `validateCompletedParts`: the list a store accepts, in the order of the part numbers. */
  method ValidateCompletedParts(parts: seq<CompletedPart>) returns (sorted: Option<seq<CompletedPart>>)
    ensures sorted.Some? <==>
      && 0 < |parts| <= 10000 && DistinctNumbers(parts)
      && forall i :: 0 <= i < |parts| ==> 1 <= parts[i].number <= 10000 && parts[i].etag != "" && parts[i].sha256 != Malformed
    ensures sorted.Some? ==> multiset(sorted.value) == multiset(parts) && Increasing(sorted.value)
  {
    if |parts| == 0 || |parts| > MAX_PARTS {
      return None;
    }
    var copy := Sort(ByNumber, parts);
    SortPermutes(ByNumber, parts);
    SortOrders(ByNumber, parts);
    SameElements(ByNumber, parts);
    for i := 0 to |copy|
      invariant forall j :: 0 <= j < i ==> Listable(copy[j], MAX_PARTS)
      invariant forall j, k :: 0 <= j < k < i ==> copy[j].number < copy[k].number
    {
      if copy[i].number < 1 || copy[i].number > MAX_PARTS || copy[i].etag == "" || copy[i].sha256 == Malformed {
        assert copy[i] in parts;
        return None;
      }
      if i > 0 && copy[i - 1].number == copy[i].number {
        if DistinctNumbers(parts) { DistinctNumbersPermuted(parts, copy); }
        return None;
      }
      if i > 0 { assert !ByNumber(copy[i], copy[i - 1]); }
    }
    assert DistinctNumbers(copy);
    DistinctNumbersPermuted(copy, parts);
    forall i | 0 <= i < |parts| ensures Listable(parts[i], MAX_PARTS) { assert parts[i] in copy; }
    return Some(copy);
  }

  /** A list that CompleteUpload accepted, once it is sorted, names exactly the parts
      1, 2, ..., count. */
  lemma SortedListIsComplete(parts: seq<CompletedPart>, sorted: seq<CompletedPart>)
    requires forall i :: 0 <= i < |parts| ==> Listable(parts[i], |parts|)
    requires multiset(sorted) == multiset(parts) && Increasing(sorted)
    ensures |sorted| == |parts| && forall i :: 0 <= i < |sorted| ==> sorted[i].number == i + 1
  {
    assert |multiset(sorted)| == |multiset(parts)|;
    forall i | 0 <= i < |sorted| ensures 1 <= sorted[i].number <= |sorted| {
      assert sorted[i] in multiset(parts);
      assert sorted[i] in parts;
    }
    forall i | 0 <= i < |sorted| ensures sorted[i].number == i + 1 {
      Pigeonhole(sorted, 1, i);
      PigeonholeAbove(sorted, |sorted|, i);
    }
  }

  // ---- Assembling the object ----------------------------------------------------------

  datatype StoredPart = StoredPart(number: int, etag: string, sha256: int, bytes: Bytes)

  predicate SortedParts(parts: seq<StoredPart>) { forall i, j :: 0 <= i < j < |parts| ==> parts[i].number < parts[j].number }

  function Concat(parts: seq<StoredPart>): Bytes { if parts == [] then [] else Concat(parts[..|parts| - 1]) + parts[|parts| - 1].bytes }

  predicate PartMatches(part: StoredPart, listed: CompletedPart) {
    part.number == listed.number && part.etag == listed.etag && (listed.sha256 == NoChecksum || listed.sha256 == Sha256(part.sha256))
  }

  datatype AssembleError = BadRequest | SizeMismatch | ChecksumMismatch

  /** The copy loop of CompleteMultipart: `parts` as ListParts sorts them, `listed` as
      `validateCompletedParts` sorts them. */
  method Assemble(parts: seq<StoredPart>, listed: seq<CompletedPart>, size: int, sha256: int, hash: Bytes -> int)
    returns (assembled: Result<Bytes, AssembleError>)
    requires SortedParts(parts)
    ensures assembled.Ok? <==>
      && |parts| == |listed|
      && (forall i :: 0 <= i < |parts| ==>
            && parts[i].number == listed[i].number && parts[i].etag == listed[i].etag
            && (listed[i].sha256 != NoChecksum ==> listed[i].sha256 == Sha256(parts[i].sha256)))
      && |Concat(parts)| == size && hash(Concat(parts)) == sha256
    ensures assembled.Ok? ==> assembled.value == Concat(parts)
    ensures assembled == Err(SizeMismatch) ==> |Concat(parts)| != size
  {
    if |parts| != |listed| {
      return Err(BadRequest);
    }
    var body: Bytes, written := [], 0;
    for i := 0 to |parts|
      invariant body == Concat(parts[..i]) && written == |body|
      invariant forall j :: 0 <= j < i ==> PartMatches(parts[j], listed[j])
    {
      var part := parts[i];
      if part.number != listed[i].number || part.etag != listed[i].etag
         || (listed[i].sha256 != NoChecksum && listed[i].sha256 != Sha256(part.sha256)) {
        return Err(BadRequest);
      }
      assert parts[..i + 1][..i] == parts[..i];
      body := body + part.bytes;
      written := written + |part.bytes|;
    }
    assert parts[..|parts|] == parts;
    if written != size {
      return Err(SizeMismatch);
    }
    if hash(body) != sha256 {
      return Err(ChecksumMismatch);
    }
    return Ok(body);
  }

  lemma {:induction false} ConcatLength(parts: seq<StoredPart>, size: int, partSize: int, count: int)
    requires |parts| <= count
    requires forall i :: 0 <= i < |parts| ==> parts[i].number == i + 1 && |parts[i].bytes| == ExpectedSize(size, partSize, count, i + 1)
    ensures |Concat(parts)| == PlannedTotal(size, partSize, count, |parts|)
  {
    if parts != [] { ConcatLength(parts[..|parts| - 1], size, partSize, count); }
  }

  predicate FullSet(parts: seq<StoredPart>, size: int, partSize: int)
    requires partSize > 0
  {
    && |parts| == PartCount(size, partSize)
    && forall i :: 0 <= i < |parts| ==> parts[i].number == i + 1 && |parts[i].bytes| == ExpectedSize(size, partSize, |parts|, i + 1)
  }

  /** A full set of parts, each accepted by its descriptor, never runs into the size check. */
  lemma FullSetFits(parts: seq<StoredPart>, size: int, partSize: int)
    requires size > 0 && partSize > 0 && FullSet(parts, size, partSize)
    ensures |Concat(parts)| == size
  {
    PartsAddUp(size, partSize);
    ConcatLength(parts, size, partSize, |parts|);
  }

  /** In the object, byte `k` of part `n + 1` stands `n` part sizes further on: the parts
      follow each other in the order of their numbers. */
  lemma BytesInNumberOrder(parts: seq<StoredPart>, size: int, partSize: int, n: nat, k: nat)
    requires size > 0 && partSize > 0 && FullSet(parts, size, partSize)
    requires n < |parts| && k < |parts[n].bytes|
    ensures 0 <= n * partSize + k < size && |Concat(parts)| == size
    ensures Concat(parts)[n * partSize + k] == parts[n].bytes[k]
  {
    FullSetFits(parts, size, partSize);
    ConcatAt(parts, partSize, n, k);
  }

  lemma {:induction false} ConcatAt(parts: seq<StoredPart>, partSize: int, n: nat, k: nat)
    requires partSize > 0 && n < |parts| && k < |parts[n].bytes|
    requires forall i :: 0 <= i < |parts| - 1 ==> |parts[i].bytes| == partSize
    ensures 0 <= n * partSize + k < |Concat(parts)| && Concat(parts)[n * partSize + k] == parts[n].bytes[k]
  {
    var init := parts[..|parts| - 1];
    FullLength(init, partSize);
    if n < |parts| - 1 {
      assert init[n] == parts[n];
      ConcatAt(init, partSize, n, k);
    }
  }

  lemma {:induction false} FullLength(parts: seq<StoredPart>, partSize: int)
    requires forall i :: 0 <= i < |parts| ==> |parts[i].bytes| == partSize
    ensures |Concat(parts)| == |parts| * partSize
  {
    if parts != [] { FullLength(parts[..|parts| - 1], partSize); }
  }
}
