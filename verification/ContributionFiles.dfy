/** The bucket of contribution files. */
module ContributionFiles {
  import opened Outcomes
  import opened Octets
  import opened ContributorsDb

  const PARALLEL_UPLOAD_PARTS: nat := 8

  /** The objects of a contributor: the contribution, and the parts it is uploaded in. */
  datatype Object = Whole(key: Key) | Part(key: Key, index: nat)

  type Files = map<Object, Bytes>

  // ---- Object names ----

  function HexDigit(d: nat): char
    requires d < 16
  {
    "0123456789abcdef"[d]
  }

  function HexKey(bytes: Bytes): (s: string)
    ensures |s| == 2 * |bytes|
  {
    if bytes == [] then "" else [HexDigit(bytes[0] / 16), HexDigit(bytes[0] % 16)] + HexKey(bytes[1..])
  }

  function ObjectName(k: Key): string {
    "contributions/" + HexKey(k.bytes) + ".bin"
  }

  function PartObjectName(k: Key, i: nat): string
    requires i < PARALLEL_UPLOAD_PARTS
  {
    ObjectName(k) + ".part." + [HexDigit(i)]
  }

  function Name(o: Object): string
    requires o.Part? ==> o.index < PARALLEL_UPLOAD_PARTS
  {
    match o
    case Whole(k) => ObjectName(k)
    case Part(k, i) => PartObjectName(k, i)
  }

  /** The digits 0 to 9 and then the lower-case letters from a on. */
  predicate IsHexDigit(c: char, d: nat)
    requires d < 16
  {
    c as int == if d < 10 then '0' as int + d else 'a' as int + (d - 10)
  }

  lemma DigitIs(d: nat)
    requires d < 16
    ensures IsHexDigit(HexDigit(d), d)
  {
    var digits := "0123456789abcdef";
    assert digits[0] == '0' && digits[1] == '1' && digits[2] == '2' && digits[3] == '3' && digits[4] == '4'
        && digits[5] == '5' && digits[6] == '6' && digits[7] == '7' && digits[8] == '8' && digits[9] == '9'
        && digits[10] == 'a' && digits[11] == 'b' && digits[12] == 'c' && digits[13] == 'd' && digits[14] == 'e' && digits[15] == 'f';
  }

  /** Two digits for every byte, the higher half first. */
  lemma {:induction false} HexDigitsAt(bytes: Bytes, i: nat)
    requires i < |bytes|
    ensures IsHexDigit(HexKey(bytes)[2 * i], bytes[i] / 16) && IsHexDigit(HexKey(bytes)[2 * i + 1], bytes[i] % 16)
  {
    hide HexDigit, IsHexDigit;
    DigitIs(bytes[0] / 16);
    DigitIs(bytes[0] % 16);
    if i > 0 {
      HexDigitsAt(bytes[1..], i - 1);
      assert HexKey(bytes)[2..] == HexKey(bytes[1..]);
    }
  }

  lemma {:induction false} HexInjective(a: Bytes, b: Bytes)
    requires |a| == |b| && HexKey(a) == HexKey(b)
    ensures a == b
  {
    if a != [] {
      var s, t := HexKey(a), HexKey(b);
      assert s[0] == HexDigit(a[0] / 16) && s[1] == HexDigit(a[0] % 16) && s[2..] == HexKey(a[1..]);
      assert t[0] == HexDigit(b[0] / 16) && t[1] == HexDigit(b[0] % 16) && t[2..] == HexKey(b[1..]);
      DigitInjective(a[0] / 16, b[0] / 16);
      DigitInjective(a[0] % 16, b[0] % 16);
      HexInjective(a[1..], b[1..]);
      assert a == [a[0]] + a[1..] && b == [b[0]] + b[1..];
    }
  }

  lemma DigitInjective(d: nat, e: nat)
    requires d < 16 && e < 16 && HexDigit(d) == HexDigit(e)
    ensures d == e
  {
    DigitIs(d);
    DigitIs(e);
  }

  /** Different objects of keys of one length have different names in the bucket. */
  lemma NamesDiffer(o: Object, q: Object)
    requires |o.key.bytes| == |q.key.bytes|
    requires o.Part? ==> o.index < PARALLEL_UPLOAD_PARTS
    requires q.Part? ==> q.index < PARALLEL_UPLOAD_PARTS
    requires Name(o) == Name(q)
    ensures o == q
  {
    var n := |o.key.bytes|;
    NameParts(o);
    NameParts(q);
    HexInjective(o.key.bytes, q.key.bytes);
    if o.Part? {
      DigitInjective(o.index, q.index);
    }
  }

  /** The key, the kind and the index can be read off a name. */
  lemma NameParts(o: Object)
    requires o.Part? ==> o.index < PARALLEL_UPLOAD_PARTS
    ensures var s, n := Name(o), |o.key.bytes|;
      && |s| == 14 + 2 * n + (if o.Part? then 11 else 4)
      && s[14..14 + 2 * n] == HexKey(o.key.bytes)
      && (o.Part? ==> s[|s| - 1] == HexDigit(o.index))
  {
    var hex := HexKey(o.key.bytes);
    hide HexKey, HexDigit;
    Middle("contributions/", hex, ".bin");
    if o.Part? {
      var digit := HexDigit(o.index);
      Middle("contributions/" + hex + ".bin", ".part.", [digit]);
      assert Name(o) == "contributions/" + hex + ".bin" + ".part." + [digit];
    }
  }

  lemma Middle(a: string, b: string, c: string)
    ensures |a + b + c| == |a| + |b| + |c| && (a + b + c)[|a|..|a| + |b|] == b
    ensures c != "" ==> (a + b + c)[|a + b + c| - 1] == c[|c| - 1]
  {
  }

  // ---- What the operations do to the bucket ----

  predicate AllParts(files: Files, k: Key) {
    forall i | 0 <= i < PARALLEL_UPLOAD_PARTS :: Part(k, i) in files
  }

  /** The parts from `i` on, in order. */
  function PartsFrom(files: Files, k: Key, i: nat): Bytes
    requires i <= PARALLEL_UPLOAD_PARTS && AllParts(files, k)
    decreases PARALLEL_UPLOAD_PARTS - i
  {
    if i == PARALLEL_UPLOAD_PARTS then [] else files[Part(k, i)] + PartsFrom(files, k, i + 1)
  }

  function Composed(files: Files, k: Key): Bytes
    requires AllParts(files, k)
  {
    PartsFrom(files, k, 0)
  }

  /** Composing needs every part and overwrites the destination. */
  function AfterCompose(files: Files, k: Key): Files
    requires AllParts(files, k)
  {
    files[Whole(k) := Composed(files, k)]
  }

  /** The objects that `get_upload_plan` deletes, in order. */
  function UploadObjects(k: Key): (os: seq<Object>)
    ensures |os| == PARALLEL_UPLOAD_PARTS + 1
  {
    [Whole(k)] + PartObjects(k)
  }

  function PartObjects(k: Key): (os: seq<Object>)
    ensures |os| == PARALLEL_UPLOAD_PARTS
  {
    seq(PARALLEL_UPLOAD_PARTS, i requires 0 <= i < PARALLEL_UPLOAD_PARTS => Part(k, i))
  }

  /** Without the first `n` of the objects. */
  function Dropped(files: Files, os: seq<Object>, n: nat): Files
    requires n <= |os|
  {
    if n == 0 then files else Dropped(files, os, n - 1) - {os[n - 1]}
  }

  lemma {:induction false} DroppedKeeps(files: Files, os: seq<Object>, n: nat, o: Object)
    requires n <= |os| && forall i | 0 <= i < n :: os[i] != o
    ensures o in Dropped(files, os, n) <==> o in files
    ensures o in files ==> Dropped(files, os, n)[o] == files[o]
  {
    if n > 0 {
      DroppedKeeps(files, os, n - 1, o);
    }
  }

  lemma {:induction false} DroppedGone(files: Files, os: seq<Object>, n: nat, i: nat)
    requires i < n <= |os|
    ensures os[i] !in Dropped(files, os, n)
  {
    if i < n - 1 {
      DroppedGone(files, os, n - 1, i);
    }
  }

  /** Nothing of the contributor is left, and nothing of anybody else has changed. */
  ghost predicate Cleared(files: Files, files': Files, k: Key) {
    && Whole(k) !in files' && (forall i | 0 <= i < PARALLEL_UPLOAD_PARTS :: Part(k, i) !in files')
    && forall o: Object | o.key != k :: (o in files' <==> o in files) && (o in files ==> files'[o] == files[o])
  }

  lemma AllDropped(files: Files, k: Key)
    ensures Cleared(files, Dropped(files, UploadObjects(k), PARALLEL_UPLOAD_PARTS + 1), k)
  {
    var os := UploadObjects(k);
    var n := PARALLEL_UPLOAD_PARTS + 1;
    DroppedGone(files, os, n, 0);
    forall i | 0 <= i < PARALLEL_UPLOAD_PARTS ensures Part(k, i) !in Dropped(files, os, n) {
      DroppedGone(files, os, n, i + 1);
    }
    forall o: Object | o.key != k
      ensures (o in Dropped(files, os, n) <==> o in files) && (o in files ==> Dropped(files, os, n)[o] == files[o])
    {
      DroppedKeeps(files, os, n, o);
    }
  }

  /** The parts have become the whole, and nothing of anybody else has changed. */
  ghost predicate Finalized(files: Files, files': Files, k: Key) {
    && AllParts(files, k)
    && Whole(k) in files' && files'[Whole(k)] == Composed(files, k)
    && (forall i | 0 <= i < PARALLEL_UPLOAD_PARTS :: Part(k, i) !in files')
    && forall o: Object | o.key != k :: (o in files' <==> o in files) && (o in files ==> files'[o] == files[o])
  }

  lemma AllFinalized(files: Files, k: Key)
    requires AllParts(files, k)
    ensures Finalized(files, Dropped(AfterCompose(files, k), PartObjects(k), PARALLEL_UPLOAD_PARTS), k)
  {
    var os := PartObjects(k);
    var composed := AfterCompose(files, k);
    var n := PARALLEL_UPLOAD_PARTS;
    DroppedKeeps(composed, os, n, Whole(k));
    forall i | 0 <= i < PARALLEL_UPLOAD_PARTS ensures Part(k, i) !in Dropped(composed, os, n) {
      DroppedGone(composed, os, n, i);
    }
    forall o: Object | o.key != k
      ensures (o in Dropped(composed, os, n) <==> o in files) && (o in files ==> Dropped(composed, os, n)[o] == files[o])
    {
      DroppedKeeps(composed, os, n, o);
    }
  }

  // ---- The store ----

  /** The bucket. An operation may fail at any time; `faults` counts how many have. */
  class ContributionFilesStore {
    var objects: Files
    var faults: nat

    constructor ()
      ensures objects == map[] && faults == 0
    {
      objects := map[];
      faults := 0;
    }

    method ObjectExists(o: Object) returns (r: Option<bool>)
      modifies this`faults
      ensures r.Some? ==> (r.value <==> o in objects) && faults == old(faults)
      ensures r.None? ==> faults == old(faults) + 1
    {
      if * {
        faults := faults + 1;
        return None;
      }
      return Some(o in objects);
    }

    method DeleteObject(o: Object) returns (ok: bool)
      modifies this
      ensures ok ==> o in old(objects) && objects == old(objects) - {o} && faults == old(faults)
      ensures !ok ==> objects == old(objects) && (o !in objects || faults == old(faults) + 1)
    {
      if * {
        faults := faults + 1;
        return false;
      }
      if o !in objects {
        return false;
      }
      objects := objects - {o};
      return true;
    }

    /** Deletes an object when it is there. */
    method DropObject(o: Object) returns (ok: bool)
      modifies this
      ensures ok ==> objects == old(objects) - {o} && faults == old(faults)
      ensures !ok ==> objects == old(objects) && faults == old(faults) + 1
    {
      var found := ObjectExists(o);
      if found.None? {
        return false;
      }
      if found.value {
        ok := DeleteObject(o);
      } else {
        ok := true;
      }
    }

    method GetDownloadUrl(k: Key) returns (ok: bool)
      modifies this`faults
      ensures ok ==> Whole(k) in objects && faults == old(faults)
      ensures !ok ==> Whole(k) !in objects || faults == old(faults) + 1
    {
      var found := ObjectExists(Whole(k));
      if found != Some(true) {
        return false;
      }
      ok := SignUrl();
    }

    method SignUrl() returns (ok: bool)
      modifies this`faults
      ensures faults == if ok then old(faults) else old(faults) + 1
    {
      ok := *;
      if !ok {
        faults := faults + 1;
      }
    }

    /** Clears the contribution and its parts, one object after the other, until one of the
        operations fails; with all of them gone the parts can be uploaded. */
    method GetUploadPlan(k: Key) returns (ok: bool, done: nat)
      modifies this
      ensures done <= |UploadObjects(k)| && objects == Dropped(old(objects), UploadObjects(k), done)
      ensures ok ==> done == |UploadObjects(k)| && faults == old(faults) && Cleared(old(objects), objects, k)
      ensures !ok ==> faults == old(faults) + 1
    {
      AllDropped(objects, k);
      done := 0;
      ok := DropObject(Whole(k));
      if !ok {
        return;
      }
      done := 1;
      for i := 0 to PARALLEL_UPLOAD_PARTS
        invariant done == i + 1 && objects == Dropped(old(objects), UploadObjects(k), done) && faults == old(faults)
      {
        ok := DropObject(Part(k, i));
        if !ok {
          return;
        }
        done := done + 1;
      }
      for i := 0 to PARALLEL_UPLOAD_PARTS
        invariant objects == Dropped(old(objects), UploadObjects(k), done) && faults == old(faults)
      {
        ok := SignUrl();
        if !ok {
          return;
        }
      }
      ok := true;
    }

    /** Composes the parts and deletes them. Without a fault it fails exactly when a part is
        missing. */
    method FinalizeUpload(k: Key) returns (ok: bool, done: nat)
      modifies this
      ensures done <= PARALLEL_UPLOAD_PARTS + 1 && (ok <==> done == PARALLEL_UPLOAD_PARTS + 1)
      ensures done == 0 ==> objects == old(objects)
      ensures done > 0 ==> AllParts(old(objects), k)
      ensures done > 0 ==> objects == Dropped(AfterCompose(old(objects), k), PartObjects(k), done - 1)
      ensures ok ==> faults == old(faults) && Finalized(old(objects), objects, k)
      ensures !ok ==> !AllParts(old(objects), k) || faults == old(faults) + 1
    {
      done := 0;
      if * {
        faults := faults + 1;
        return false, 0;
      }
      if !AllParts(objects, k) {
        return false, 0;
      }
      objects := AfterCompose(objects, k);
      done := 1;
      for i := 0 to PARALLEL_UPLOAD_PARTS
        invariant done == i + 1 && objects == Dropped(AfterCompose(old(objects), k), PartObjects(k), i) && faults == old(faults)
      {
        DroppedKeeps(AfterCompose(old(objects), k), PartObjects(k), i, Part(k, i));
        ok := DeleteObject(Part(k, i));
        if !ok {
          return;
        }
        done := done + 1;
      }
      AllFinalized(old(objects), k);
      ok := true;
    }

    /** The object arrives in chunks that are collected in a buffer. */
    method DownloadContribution(k: Key) returns (r: Option<Bytes>)
      modifies this`faults
      ensures r.Some? ==> Whole(k) in objects && r.value == objects[Whole(k)] && faults == old(faults)
      ensures r.None? ==> Whole(k) !in objects || faults == old(faults) + 1
    {
      if Whole(k) !in objects {
        return None;
      }
      var content := objects[Whole(k)];
      var bytes: Bytes := [];
      while |bytes| < |content|
        invariant bytes <= content && faults == old(faults)
        decreases |content| - |bytes|
      {
        if * {
          faults := faults + 1;
          return None;
        }
        var end: nat :| |bytes| < end <= |content|;
        var chunk := content[|bytes|..end];
        assert bytes + chunk == content[..end];
        bytes := bytes + chunk;
      }
      return Some(bytes);
    }

    /** A client uploads a part. */
    method PutPart(k: Key, i: nat, bytes: Bytes)
      modifies this
      ensures objects == old(objects)[Part(k, i) := bytes]
    {
      objects := objects[Part(k, i) := bytes];
    }
  }
}
