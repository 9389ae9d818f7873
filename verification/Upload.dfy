/** Splitting a contribution into the parts that are uploaded, and composing them again. */
module Upload {
  import opened Octets
  import opened ContributorsDb
  import opened ContributionFiles

  function Flatten(parts: seq<Bytes>): Bytes {
    if parts == [] then [] else parts[0] + Flatten(parts[1..])
  }

  lemma {:induction false} FlattenAppend(parts: seq<Bytes>, last: Bytes)
    ensures Flatten(parts + [last]) == Flatten(parts) + last
  {
    if parts == [] {
      assert [last][1..] == [];
      assert parts + [last] == [last];
    } else {
      assert (parts + [last])[1..] == parts[1..] + [last];
      FlattenAppend(parts[1..], last);
    }
  }

  /** Part `i` of `n`: the first parts get one byte more when the length does not divide. */
  function PartLength(total: nat, n: nat, i: nat): nat
    requires n > 0
  {
    total / n + if i < total % n then 1 else 0
  }

  /** Where part `i` begins. */
  function Offset(total: nat, n: nat, i: nat): nat
    requires n > 0
  {
    if i == 0 then 0 else Offset(total, n, i - 1) + PartLength(total, n, i - 1)
  }

  lemma OneMorePart(i: nat, part: nat)
    ensures (i + 1) * part == i * part + part
  {
  }

  lemma {:induction false} OffsetIs(total: nat, n: nat, i: nat)
    requires n > 0 && i <= n
    ensures Offset(total, n, i) == i * (total / n) + (if i < total % n then i else total % n)
  {
    if i > 0 {
      OffsetIs(total, n, i - 1);
      OneMorePart(i - 1, total / n);
    }
  }

  lemma {:induction false} OffsetsGrow(total: nat, n: nat, i: nat, j: nat)
    requires n > 0 && i <= j
    ensures Offset(total, n, i) <= Offset(total, n, j)
    decreases j
  {
    hide PartLength;
    if i < j {
      OffsetsGrow(total, n, i, j - 1);
    }
  }

  lemma OffsetsEnd(total: nat, n: nat)
    requires n > 0
    ensures Offset(total, n, n) == total
  {
    OffsetIs(total, n, n);
    hide Offset;
    assert total == n * (total / n) + total % n;
  }

  lemma OffsetsFit(total: nat, n: nat, i: nat)
    requires n > 0 && i < n
    ensures Offset(total, n, i + 1) == Offset(total, n, i) + PartLength(total, n, i) <= total
    ensures Offset(total, n, n) == total
  {
    hide PartLength;
    OffsetsGrow(total, n, i + 1, n);
    OffsetsEnd(total, n);
  }

  /** Slice `i` begins after `i` equal parts and the bytes left over that went to earlier slices. */
  ghost predicate SliceIs(slice: Bytes, bytes: Bytes, n: nat, i: nat)
    requires n > 0
  {
    var start := i * (|bytes| / n) + (if i < |bytes| % n then i else |bytes| % n);
    start + |slice| <= |bytes| && slice == bytes[start..start + |slice|]
  }

  lemma SliceFound(slice: Bytes, bytes: Bytes, n: nat, i: nat)
    requires n > 0 && i <= n && Offset(|bytes|, n, i) + |slice| <= |bytes|
    requires slice == bytes[Offset(|bytes|, n, i)..Offset(|bytes|, n, i) + |slice|]
    ensures SliceIs(slice, bytes, n, i)
  {
    hide Offset;
    OffsetIs(|bytes|, n, i);
  }

  lemma NothingYet(total: nat, n: nat)
    requires n > 0
    ensures Offset(total, n, 0) == 0 && Flatten([]) == []
  {
  }

  /** The splitting loop of `upload_parallel`: the slices, in order, are the bytes, and their
      lengths differ by at most one. */
  method UploadParallel(n: nat, bytes: Bytes) returns (slices: seq<Bytes>)
    requires n > 0
    ensures |slices| == n
    ensures Flatten(slices) == bytes
    ensures forall i, j | 0 <= i <= j < n :: |slices[j]| <= |slices[i]| <= |slices[j]| + 1
    ensures forall i | 0 <= i < n :: SliceIs(slices[i], bytes, n, i)
  {
    hide SliceIs, Offset, Flatten;
    var total := |bytes|;
    var base := total / n;
    var rem := total % n;
    slices := [];
    var offset := 0;
    NothingYet(total, n);
    for i := 0 to n
      invariant |slices| == i
      invariant offset == Offset(total, n, i) <= total
      invariant Flatten(slices) == bytes[..offset]
      invariant forall k | 0 <= k < i :: |slices[k]| == PartLength(total, n, k)
      invariant forall k | 0 <= k < i :: SliceIs(slices[k], bytes, n, k)
    {
      var partLen := base + if i < rem then 1 else 0;
      OffsetsFit(total, n, i);
      var slice := bytes[offset..offset + partLen];
      SliceFound(slice, bytes, n, i);
      FlattenAppend(slices, slice);
      assert bytes[..offset] + slice == bytes[..offset + partLen];
      offset := offset + partLen;
      slices := slices + [slice];
    }
    OffsetsFit(total, n, 0);
    assert bytes[..total] == bytes;
  }

  // ---- Composing ----

  /** The parts of a contributor in the bucket are these slices. */
  ghost predicate Uploaded(files: Files, k: Key, slices: seq<Bytes>) {
    |slices| == PARALLEL_UPLOAD_PARTS
    && forall i | 0 <= i < PARALLEL_UPLOAD_PARTS :: Part(k, i) in files && files[Part(k, i)] == slices[i]
  }

  lemma {:induction false} PartsAreSlices(files: Files, k: Key, slices: seq<Bytes>, i: nat)
    requires Uploaded(files, k, slices) && i <= PARALLEL_UPLOAD_PARTS
    ensures AllParts(files, k) && PartsFrom(files, k, i) == Flatten(slices[i..])
    decreases PARALLEL_UPLOAD_PARTS - i
  {
    if i < PARALLEL_UPLOAD_PARTS {
      PartsAreSlices(files, k, slices, i + 1);
      assert slices[i..][1..] == slices[i + 1..];
    }
  }

  /** Splitting and composing is the identity. */
  lemma SplitThenCompose(files: Files, k: Key, slices: seq<Bytes>, bytes: Bytes)
    requires Uploaded(files, k, slices) && Flatten(slices) == bytes
    ensures AllParts(files, k) && Composed(files, k) == bytes
    ensures AfterCompose(files, k)[Whole(k)] == bytes
  {
    PartsAreSlices(files, k, slices, 0);
    assert slices[0..] == slices;
  }
}
