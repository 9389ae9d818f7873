/** The parallel encoding of vectors of group elements. Lengths are 64-bit and wrap around. */
module ParallelArkSerde {
  import opened Outcomes
  import opened Octets

  /** Rust allocates no more bytes than this. */
  const ISIZE_MAX: nat := 0x7fff_ffff_ffff_ffff

  /** One element: its encoding; decoding from the front of a slice; and the number of bytes
      that decoding without validation takes. */
  datatype Codec<!T> = Codec(enc: T -> Bytes, dec: Bytes -> Option<T>, trial: Bytes -> Option<nat>)

  /** Encodings have one positive size and are decoded whatever follows them. */
  ghost predicate FixedSize<T(!new)>(codec: Codec<T>, es: nat) {
    && es > 0
    && (forall x: T :: |codec.enc(x)| == es)
    && (forall x: T, rest: Bytes :: codec.dec(codec.enc(x) + rest) == Some(x))
    && (forall x: T, rest: Bytes :: codec.trial(codec.enc(x) + rest) == Some(es))
  }

  /** Only encodings are decoded. */
  ghost predicate CanonicalCodec<T(!new)>(codec: Codec<T>) {
    && (forall b: Bytes, x: T | codec.dec(b) == Some(x) :: codec.enc(x) <= b)
    && (forall b: Bytes, n: nat | codec.trial(b) == Some(n) :: n <= |b| && exists x: T :: |codec.enc(x)| == n)
  }

  // ---- The sequential encoding ----

  function EncodeAll<T>(enc: T -> Bytes, v: seq<T>): Bytes {
    if v == [] then [] else enc(v[0]) + EncodeAll(enc, v[1..])
  }

  /** A count, then the elements in order. */
  function EncodeVec<T>(enc: T -> Bytes, v: seq<T>): (r: Bytes)
    ensures |r| >= 8
  {
    LittleEndian(|v|, 8) + EncodeAll(enc, v)
  }

  function EncodeRows<T>(enc: T -> Bytes, rows: seq<seq<T>>): Bytes {
    if rows == [] then [] else EncodeVec(enc, rows[0]) + EncodeRows(enc, rows[1..])
  }

  function EncodeVecVec<T>(enc: T -> Bytes, rows: seq<seq<T>>): Bytes {
    LittleEndian(|rows|, 8) + EncodeRows(enc, rows)
  }

  // ---- Where everything is in the bytes ----

  ghost predicate AllSized<T>(enc: T -> Bytes, v: seq<T>, es: nat) {
    forall i | 0 <= i < |v| :: |enc(v[i])| == es
  }

  /** Element `i` occupies the `i`-th `es` bytes from `start` on. */
  ghost predicate ElementsAt<T>(bytes: Bytes, start: nat, enc: T -> Bytes, v: seq<T>, es: nat) {
    forall i | 0 <= i < |v| :: ElementAt(bytes, start + i * es, enc, v[i], es)
  }

  ghost predicate ElementAt<T>(bytes: Bytes, start: nat, enc: T -> Bytes, x: T, es: nat) {
    start + es <= |bytes| && bytes[start..start + es] == enc(x)
  }

  /** A row: the count of its elements in eight bytes, then the elements. */
  ghost predicate RowAt<T>(bytes: Bytes, pos: nat, enc: T -> Bytes, row: seq<T>, es: nat) {
    IsCount(bytes, pos, |row|) && ElementsAt(bytes, pos + 8, enc, row, es)
  }

  ghost predicate RowsSized<T>(enc: T -> Bytes, rows: seq<seq<T>>, es: nat) {
    forall j | 0 <= j < |rows| :: AllSized(enc, rows[j], es)
  }

  /** How many bytes the first `j` rows take. */
  function RowOffset<T>(rows: seq<seq<T>>, j: nat, es: nat): nat
    requires j <= |rows|
  {
    if j == 0 then 0 else 8 + |rows[0]| * es + RowOffset(rows[1..], j - 1, es)
  }

  ghost predicate RowsAt<T>(bytes: Bytes, pos: nat, enc: T -> Bytes, rows: seq<seq<T>>, es: nat) {
    forall j | 0 <= j < |rows| :: RowAt(bytes, pos + RowOffset(rows, j, es), enc, rows[j], es)
  }

  /** The bytes are the flat vector and nothing else. */
  ghost predicate LaidOut<T>(bytes: Bytes, enc: T -> Bytes, v: seq<T>, es: nat) {
    RowAt(bytes, 0, enc, v, es) && |bytes| == 8 + |v| * es
  }

  /** The bytes are the nested vector and nothing else. */
  ghost predicate LaidOutRows<T>(bytes: Bytes, enc: T -> Bytes, rows: seq<seq<T>>, es: nat) {
    IsCount(bytes, 0, |rows|) && RowsAt(bytes, 8, enc, rows, es) && |bytes| == 8 + RowOffset(rows, |rows|, es)
  }

  lemma CountIff(bytes: Bytes, pos: nat, n: nat)
    ensures IsCount(bytes, pos, n) <==> pos + 8 <= |bytes| && bytes[pos..pos + 8] == LittleEndian(n, 8)
  {
    hide LittleEndian;
    CountIs(n);
    if pos + 8 <= |bytes| && bytes[pos..pos + 8] == LittleEndian(n, 8) {
      var b := bytes[pos..pos + 8];
      assert b[0] == bytes[pos] && b[1] == bytes[pos + 1] && b[2] == bytes[pos + 2] && b[3] == bytes[pos + 3];
      assert b[4] == bytes[pos + 4] && b[5] == bytes[pos + 5] && b[6] == bytes[pos + 6] && b[7] == bytes[pos + 7];
    }
  }

  lemma PiecesIff(bytes: Bytes, pos: nat, next: nat, end: nat, a: Bytes, b: Bytes)
    requires pos <= next <= end <= |bytes| && |a| == next - pos
    ensures bytes[pos..end] == a + b <==> bytes[pos..next] == a && bytes[next..end] == b
  {
    assert bytes[pos..end] == bytes[pos..next] + bytes[next..end];
    if bytes[pos..end] == a + b {
      assert (a + b)[..|a|] == a && (a + b)[|a|..] == b;
      assert bytes[pos..end][..|a|] == bytes[pos..next] && bytes[pos..end][|a|..] == bytes[next..end];
    }
  }

  /** Elements of one size are where they belong exactly when the bytes there are their encoding. */
  lemma {:induction false} ElementsIff<T>(bytes: Bytes, start: nat, enc: T -> Bytes, v: seq<T>, es: nat)
    requires AllSized(enc, v, es)
    ensures |EncodeAll(enc, v)| == |v| * es
    ensures start + |v| * es <= |bytes| ==> (ElementsAt(bytes, start, enc, v, es) <==> bytes[start..start + |v| * es] == EncodeAll(enc, v))
    decreases |v|
  {
    hide ElementAt, ElementsAt, AllSized;
    if v == [] {
      NoElements(bytes, start, enc, v, es);
    } else {
      var rest := v[1..];
      SizedTail(enc, v, es);
      Further(start, |rest|, es);
      ElementsIff(bytes, start + es, enc, rest, es);
      ElementsSplit(bytes, start, enc, v, es);
      if start + |v| * es <= |bytes| {
        NotNegative(|rest|, es);
        ElementIs(bytes, start, enc, v[0], es);
        PiecesIff(bytes, start, start + es, start + |v| * es, enc(v[0]), EncodeAll(enc, rest));
      }
    }
  }

  lemma SizedTail<T>(enc: T -> Bytes, v: seq<T>, es: nat)
    requires v != [] && AllSized(enc, v, es)
    ensures |enc(v[0])| == es && AllSized(enc, v[1..], es)
  {
  }

  lemma NotNegative(n: nat, es: nat)
    ensures n * es >= 0
  {
  }

  lemma NoElements<T>(bytes: Bytes, start: nat, enc: T -> Bytes, v: seq<T>, es: nat)
    requires v == []
    ensures ElementsAt(bytes, start, enc, v, es)
  {
  }

  lemma ElementIs<T>(bytes: Bytes, start: nat, enc: T -> Bytes, x: T, es: nat)
    requires start + es <= |bytes|
    ensures ElementAt(bytes, start, enc, x, es) <==> bytes[start..start + es] == enc(x)
  {
  }

  lemma ElementsSplit<T>(bytes: Bytes, start: nat, enc: T -> Bytes, v: seq<T>, es: nat)
    requires v != []
    ensures ElementsAt(bytes, start, enc, v, es) <==> ElementAt(bytes, start, enc, v[0], es) && ElementsAt(bytes, start + es, enc, v[1..], es)
  {
    hide ElementAt, ElementsAt;
    if ElementsAt(bytes, start, enc, v, es) {
      ElementsApart(bytes, start, enc, v, es);
    }
    if ElementAt(bytes, start, enc, v[0], es) && ElementsAt(bytes, start + es, enc, v[1..], es) {
      ElementsTogether(bytes, start, enc, v, es);
    }
  }

  lemma Further(start: nat, i: nat, es: nat)
    ensures start + (i + 1) * es == start + es + i * es
  {
  }

  lemma ElementsApart<T>(bytes: Bytes, start: nat, enc: T -> Bytes, v: seq<T>, es: nat)
    requires v != [] && ElementsAt(bytes, start, enc, v, es)
    ensures ElementAt(bytes, start, enc, v[0], es) && ElementsAt(bytes, start + es, enc, v[1..], es)
  {
    hide ElementAt;
    forall i | 0 <= i < |v[1..]| ensures ElementAt(bytes, start + es + i * es, enc, v[1..][i], es) {
      Further(start, i, es);
      assert ElementAt(bytes, start + (i + 1) * es, enc, v[i + 1], es);
    }
    assert ElementAt(bytes, start + 0 * es, enc, v[0], es);
  }

  lemma ElementsTogether<T>(bytes: Bytes, start: nat, enc: T -> Bytes, v: seq<T>, es: nat)
    requires v != [] && ElementAt(bytes, start, enc, v[0], es) && ElementsAt(bytes, start + es, enc, v[1..], es)
    ensures ElementsAt(bytes, start, enc, v, es)
  {
    hide ElementAt;
    assert start + 0 * es == start;
    forall i | 0 <= i < |v| ensures ElementAt(bytes, start + i * es, enc, v[i], es) {
      if i > 0 {
        Further(start, i - 1, es);
        assert ElementAt(bytes, start + es + (i - 1) * es, enc, v[1..][i - 1], es);
      }
    }
  }

  lemma RowIff<T>(bytes: Bytes, pos: nat, enc: T -> Bytes, row: seq<T>, es: nat)
    requires AllSized(enc, row, es) && pos + 8 + |row| * es <= |bytes|
    ensures |EncodeVec(enc, row)| == 8 + |row| * es
    ensures RowAt(bytes, pos, enc, row, es) <==> bytes[pos..pos + 8 + |row| * es] == EncodeVec(enc, row)
  {
    hide LittleEndian, IsCount, AllSized, ElementsAt, EncodeAll;
    var end := pos + 8 + |row| * es;
    CountIff(bytes, pos, |row|);
    ElementsIff(bytes, pos + 8, enc, row, es);
    assert bytes[pos..end] == bytes[pos..pos + 8] + bytes[pos + 8..end];
    if bytes[pos..end] == EncodeVec(enc, row) {
      assert bytes[pos..end][..8] == LittleEndian(|row|, 8) && bytes[pos..end][8..] == EncodeAll(enc, row);
    }
  }

  /** The flat encoding is the one layout of the vector. */
  lemma LaidOutIff<T>(bytes: Bytes, enc: T -> Bytes, v: seq<T>, es: nat)
    requires AllSized(enc, v, es)
    ensures LaidOut(bytes, enc, v, es) <==> bytes == EncodeVec(enc, v)
  {
    hide RowAt, EncodeVec, AllSized;
    EncodedSize(enc, v, es);
    if |bytes| == 8 + |v| * es {
      RowIff(bytes, 0, enc, v, es);
      assert bytes[0..|bytes|] == bytes;
    }
  }

  lemma EncodedSize<T>(enc: T -> Bytes, v: seq<T>, es: nat)
    requires AllSized(enc, v, es)
    ensures |EncodeVec(enc, v)| == 8 + |v| * es
  {
    ElementsIff([], 0, enc, v, es);
  }

  lemma RowsSplit<T>(bytes: Bytes, pos: nat, enc: T -> Bytes, rows: seq<seq<T>>, es: nat)
    requires rows != []
    ensures RowsAt(bytes, pos, enc, rows, es)
       <==> RowAt(bytes, pos, enc, rows[0], es) && RowsAt(bytes, pos + 8 + |rows[0]| * es, enc, rows[1..], es)
  {
    hide RowAt;
    var next := pos + 8 + |rows[0]| * es;
    forall j | 1 <= j < |rows| ensures pos + RowOffset(rows, j, es) == next + RowOffset(rows[1..], j - 1, es) {
    }
    if RowAt(bytes, pos, enc, rows[0], es) && RowsAt(bytes, next, enc, rows[1..], es) {
      forall j | 0 <= j < |rows| ensures RowAt(bytes, pos + RowOffset(rows, j, es), enc, rows[j], es) {
        if j > 0 {
          assert RowAt(bytes, next + RowOffset(rows[1..], j - 1, es), enc, rows[1..][j - 1], es);
        }
      }
    }
    if RowsAt(bytes, pos, enc, rows, es) {
      forall j | 0 <= j < |rows[1..]| ensures RowAt(bytes, next + RowOffset(rows[1..], j, es), enc, rows[1..][j], es) {
        assert RowAt(bytes, pos + RowOffset(rows, j + 1, es), enc, rows[j + 1], es);
      }
      assert RowAt(bytes, pos + RowOffset(rows, 0, es), enc, rows[0], es);
    }
  }

  lemma {:induction false} RowsIff<T>(bytes: Bytes, pos: nat, enc: T -> Bytes, rows: seq<seq<T>>, es: nat)
    requires RowsSized(enc, rows, es)
    ensures |EncodeRows(enc, rows)| == RowOffset(rows, |rows|, es)
    ensures pos + RowOffset(rows, |rows|, es) == |bytes| ==> (RowsAt(bytes, pos, enc, rows, es) <==> bytes[pos..] == EncodeRows(enc, rows))
    decreases |rows|
  {
    hide RowAt, AllSized, EncodeVec;
    if rows != [] {
      hide RowsAt;
      var next := pos + 8 + |rows[0]| * es;
      assert RowsSized(enc, rows[1..], es) by {
        assert forall j | 0 <= j < |rows[1..]| :: rows[1..][j] == rows[j + 1];
      }
      RowsIff(bytes, next, enc, rows[1..], es);
      RowsSplit(bytes, pos, enc, rows, es);
      EncodedSize(enc, rows[0], es);
      if pos + RowOffset(rows, |rows|, es) == |bytes| {
        RowIff(bytes, pos, enc, rows[0], es);
        PiecesIff(bytes, pos, next, |bytes|, EncodeVec(enc, rows[0]), EncodeRows(enc, rows[1..]));
      }
    }
  }

  /** The nested encoding is the one layout of the rows. */
  lemma LaidOutRowsIff<T>(bytes: Bytes, enc: T -> Bytes, rows: seq<seq<T>>, es: nat)
    requires RowsSized(enc, rows, es)
    ensures LaidOutRows(bytes, enc, rows, es) <==> bytes == EncodeVecVec(enc, rows)
  {
    hide RowsAt, RowsSized, LittleEndian, IsCount, EncodeRows;
    RowsIff(bytes, 8, enc, rows, es);
    CountIff(bytes, 0, |rows|);
    if bytes == EncodeVecVec(enc, rows) {
      assert bytes[..8] == LittleEndian(|rows|, 8) && bytes[8..] == EncodeRows(enc, rows);
    }
    if LaidOutRows(bytes, enc, rows, es) {
      assert bytes == bytes[0..8] + bytes[8..];
    }
  }

  // ---- The parallel encoders ----

  /** The elements are encoded each on its own and then appended one after the other. */
  method ParArkSeVec<T>(enc: T -> Bytes, v: seq<T>) returns (bytes: Bytes)
    ensures bytes == EncodeVec(enc, v)
    ensures IsCount(bytes, 0, |v|)
    ensures forall es: nat | AllSized(enc, v, es) :: LaidOut(bytes, enc, v, es)
  {
    var elemBytes := seq(|v|, i requires 0 <= i < |v| => enc(v[i]));
    bytes := LittleEndian(|v|, 8);
    for i := 0 to |elemBytes|
      invariant bytes + EncodeAll(enc, v[i..]) == EncodeVec(enc, v)
    {
      assert v[i..][1..] == v[i + 1..];
      assert (bytes + elemBytes[i]) + EncodeAll(enc, v[i + 1..]) == bytes + (elemBytes[i] + EncodeAll(enc, v[i + 1..]));
      bytes := bytes + elemBytes[i];
    }
    assert bytes + [] == bytes;
    assert bytes[0..8] == LittleEndian(|v|, 8);
    CountIff(bytes, 0, |v|);
    forall es: nat | AllSized(enc, v, es) ensures LaidOut(bytes, enc, v, es) {
      LaidOutIff(bytes, enc, v, es);
    }
  }

  method ParArkSeVecVec<T>(enc: T -> Bytes, rows: seq<seq<T>>) returns (bytes: Bytes)
    ensures bytes == EncodeVecVec(enc, rows)
    ensures IsCount(bytes, 0, |rows|)
    ensures forall es: nat | RowsSized(enc, rows, es) :: LaidOutRows(bytes, enc, rows, es)
  {
    var innerBytes := [];
    for i := 0 to |rows|
      invariant |innerBytes| == i && forall k | 0 <= k < i :: innerBytes[k] == EncodeVec(enc, rows[k])
    {
      var rowBytes := ParArkSeVec(enc, rows[i]);
      innerBytes := innerBytes + [rowBytes];
    }
    bytes := LittleEndian(|rows|, 8);
    for i := 0 to |innerBytes|
      invariant bytes + EncodeRows(enc, rows[i..]) == EncodeVecVec(enc, rows)
    {
      assert rows[i..][1..] == rows[i + 1..];
      assert (bytes + innerBytes[i]) + EncodeRows(enc, rows[i + 1..]) == bytes + (innerBytes[i] + EncodeRows(enc, rows[i + 1..]));
      bytes := bytes + innerBytes[i];
    }
    assert bytes + [] == bytes;
    assert bytes[0..8] == LittleEndian(|rows|, 8);
    CountIff(bytes, 0, |rows|);
    forall es: nat | RowsSized(enc, rows, es) ensures LaidOutRows(bytes, enc, rows, es) {
      LaidOutRowsIff(bytes, enc, rows, es);
    }
  }

  // ---- Decoding ----

  /** Pieces of `es` bytes; the last one may be shorter. */
  function Chunks(data: Bytes, es: nat): seq<Bytes>
    requires es > 0
  {
    if data == [] then []
    else if |data| <= es then [data]
    else [data[..es]] + Chunks(data[es..], es)
  }

  function DecodeAll<T>(codec: Codec<T>, chunks: seq<Bytes>): Option<seq<T>> {
    if chunks == [] then Some([])
    else
      match codec.dec(chunks[0])
      case None => None
      case Some(x) =>
        match DecodeAll(codec, chunks[1..])
        case None => None
        case Some(xs) => Some([x] + xs)
  }

  function ReadLength(raw: Bytes, pos: nat): (n: nat)
    requires pos + 8 <= |raw|
    ensures n < WORD
  {
    EncodeDecode(raw[pos..pos + 8]);
    WordBound();
    FromLittleEndian(raw[pos..pos + 8])
  }

  /** `par_ark_de_vec`: the element size is the quotient of the remaining bytes by the count.
      With a count but no bytes it is zero, which `par_chunks` does not take. */
  function DecodeVec<T>(codec: Codec<T>, raw: Bytes): Decoded<seq<T>> {
    if |raw| < 8 then Malformed
    else
      var len := ReadLength(raw, 0);
      var rest := raw[8..];
      if len == 0 then Parsed([])
      else if |rest| % len != 0 then Malformed
      else if |rest| / len == 0 then Panicked
      else
        match DecodeAll(codec, Chunks(rest, |rest| / len))
        case None => Malformed
        case Some(v) => Parsed(v)
  }

  function Wrapped(n: nat): (r: nat)
    ensures r < WORD && (n < WORD ==> r == n)
  {
    n % WORD
  }

  /** Where a row of `innerLen` elements that begins at `start` ends, in 64-bit arithmetic. */
  function RowEnd(start: nat, innerLen: nat, es: nat): nat {
    Wrapped(start + Wrapped(innerLen * es))
  }

  datatype Range = Range(start: nat, count: nat)

  /** The boundaries of the rows: for each row, where its elements begin and how many there are. */
  function Scan(raw: Bytes, es: nat, pos: nat, count: nat): Option<seq<Range>>
    decreases count
  {
    if count == 0 then Some([])
    else if pos + 8 > |raw| then None
    else
      var innerLen := ReadLength(raw, pos);
      var end := RowEnd(pos + 8, innerLen, es);
      if end > |raw| then None
      else
        Prefixed([Range(pos + 8, innerLen)], Scan(raw, es, end, count - 1))
  }

  lemma ScanStep(raw: Bytes, es: nat, pos: nat, count: nat)
    requires count > 0 && pos + 8 <= |raw|
    ensures var end := RowEnd(pos + 8, ReadLength(raw, pos), es);
      end <= |raw| ==> Scan(raw, es, pos, count) == Prefixed([Range(pos + 8, ReadLength(raw, pos))], Scan(raw, es, end, count - 1))
  {
  }

  function Prefixed<T>(xs: seq<T>, ys: Option<seq<T>>): Option<seq<T>> {
    if ys.None? then None else Some(xs + ys.value)
  }

  lemma PrefixedTwice<T>(xs: seq<T>, ys: seq<T>, zs: Option<seq<T>>)
    ensures Prefixed(xs, Prefixed(ys, zs)) == Prefixed(xs + ys, zs)
  {
    if zs.Some? {
      assert xs + (ys + zs.value) == (xs + ys) + zs.value;
    }
  }

  lemma NothingPrefixed<T>(xs: seq<T>)
    ensures Prefixed(xs, None) == None
  {
  }

  lemma PrefixedEmpty<T>(xs: seq<T>, ys: Option<seq<T>>)
    ensures Prefixed([], ys) == ys && Prefixed(xs, Some([])) == Some(xs)
  {
    if ys.Some? {
      assert [] + ys.value == ys.value;
    }
    assert xs + [] == xs;
  }

  /** One row; a range that ends before it begins cannot be sliced. */
  function DecodeRow<T>(codec: Codec<T>, raw: Bytes, es: nat, range: Range): Decoded<seq<T>>
    requires es > 0
  {
    var end := RowEnd(range.start, range.count, es);
    if !(range.start <= end <= |raw|) then Panicked
    else
      match DecodeAll(codec, Chunks(raw[range.start..end], es))
      case None => Malformed
      case Some(v) => Parsed(v)
  }

  /** All rows. A row that panics ends the process, whatever becomes of the others. */
  function DecodeRanges<T>(codec: Codec<T>, raw: Bytes, es: nat, ranges: seq<Range>): Decoded<seq<seq<T>>>
    requires es > 0
  {
    if ranges == [] then Parsed([])
    else
      match (DecodeRow(codec, raw, es, ranges[0]), DecodeRanges(codec, raw, es, ranges[1..]))
      case (Parsed(row), Parsed(rows)) => Parsed([row] + rows)
      case (Panicked, _) => Panicked
      case (_, Panicked) => Panicked
      case (_, _) => Malformed
  }

  /** `par_ark_de_vec_vec`. */
  function DecodeVecVec<T>(codec: Codec<T>, raw: Bytes): Decoded<seq<seq<T>>> {
    if |raw| < 8 then Malformed
    else
      var outerLen := ReadLength(raw, 0);
      if outerLen == 0 then Parsed([])
      else if |raw| < 16 then Malformed
      else if ReadLength(raw, 8) == 0 then
        if |raw| != Wrapped(8 + Wrapped(outerLen * 8)) then Malformed
        else if outerLen * 24 > ISIZE_MAX then Panicked
        else Parsed(seq(outerLen, _ => []))
      else
        match codec.trial(raw[16..])
        case None => Malformed
        case Some(es) =>
          if outerLen * 16 > ISIZE_MAX then Panicked
          else
            match Scan(raw, es, 8, outerLen)
            case None => Malformed
            case Some(ranges) => if es == 0 then Panicked else DecodeRanges(codec, raw, es, ranges)
  }

  lemma {:induction false} RowCounts<T>(codec: Codec<T>, raw: Bytes, es: nat, ranges: seq<Range>)
    requires es > 0 && DecodeRanges(codec, raw, es, ranges).Parsed?
    ensures |DecodeRanges(codec, raw, es, ranges).value| == |ranges|
  {
    if ranges != [] {
      RowCounts(codec, raw, es, ranges[1..]);
    }
  }

  lemma {:induction false} ScanCount(raw: Bytes, es: nat, pos: nat, count: nat)
    requires Scan(raw, es, pos, count).Some?
    ensures |Scan(raw, es, pos, count).value| == count
    decreases count
  {
    if count > 0 {
      ScanCount(raw, es, RowEnd(pos + 8, ReadLength(raw, pos), es), count - 1);
    }
  }

  /** As many rows are decoded as the first eight bytes say, each weighted by its place. */
  lemma DecodedRows<T>(codec: Codec<T>, raw: Bytes)
    ensures DecodeVecVec(codec, raw).Parsed? ==> |raw| >= 8 && |DecodeVecVec(codec, raw).value| == Weighed(raw[..8])
  {
    hide Scan, DecodeRanges, RowEnd, Weighed, FromLittleEndian;
    if DecodeVecVec(codec, raw).Parsed? {
      WeighedIs(raw[..8]);
      var count := ReadLength(raw, 0);
      if count > 0 && ReadLength(raw, 8) != 0 {
        var es := codec.trial(raw[16..]).value;
        ScanCount(raw, es, 8, count);
        RowCounts(codec, raw, es, Scan(raw, es, 8, count).value);
      }
    }
  }

  /** The scan as a loop that advances `pos` and pushes ranges. */
  method ScanBoundaries(raw: Bytes, es: nat, outerLen: nat) returns (r: Option<seq<Range>>)
    requires 8 <= |raw| <= ISIZE_MAX
    ensures r == Scan(raw, es, 8, outerLen)
  {
    hide RowEnd, Prefixed;
    var ranges: seq<Range> := [];
    var pos: nat := 8;
    PrefixedEmpty(ranges, Scan(raw, es, 8, outerLen));
    for i := 0 to outerLen
      invariant pos <= |raw|
      invariant Scan(raw, es, 8, outerLen) == Prefixed(ranges, Scan(raw, es, pos, outerLen - i))
    {
      if Wrapped(pos + 8) > |raw| {
        NothingPrefixed(ranges);
        return None;
      }
      var innerLen := ReadLength(raw, pos);
      var start := pos + 8;
      var end := RowEnd(start, innerLen, es);
      if end > |raw| {
        NothingPrefixed(ranges);
        return None;
      }
      ScanStep(raw, es, pos, outerLen - i);
      PrefixedTwice(ranges, [Range(start, innerLen)], Scan(raw, es, end, outerLen - i - 1));
      assert outerLen - i - 1 == outerLen - (i + 1);
      ranges := ranges + [Range(start, innerLen)];
      pos := end;
    }
    PrefixedEmpty(ranges, None);
    return Some(ranges);
  }

  method ParArkDeVecVec<T>(codec: Codec<T>, raw: Bytes) returns (r: Decoded<seq<seq<T>>>)
    requires |raw| <= ISIZE_MAX
    ensures r == DecodeVecVec(codec, raw)
    ensures r.Parsed? ==> |raw| >= 8 && |r.value| == Weighed(raw[..8])
  {
    DecodedRows(codec, raw);
    if |raw| < 8 {
      return Malformed;
    }
    var outerLen := ReadLength(raw, 0);
    if outerLen == 0 {
      return Parsed([]);
    }
    if |raw| < 16 {
      return Malformed;
    }
    var firstInnerLen := ReadLength(raw, 8);
    if firstInnerLen == 0 {
      var expected := Wrapped(8 + Wrapped(outerLen * 8));
      if |raw| != expected {
        return Malformed;
      }
      return if outerLen * 24 > ISIZE_MAX then Panicked else Parsed(seq(outerLen, _ => []));
    }
    var trial := codec.trial(raw[16..]);
    if trial.None? {
      return Malformed;
    }
    if outerLen * 16 > ISIZE_MAX {
      return Panicked;
    }
    var ranges := ScanBoundaries(raw, trial.value, outerLen);
    if ranges.None? {
      return Malformed;
    }
    return if trial.value == 0 then Panicked else DecodeRanges(codec, raw, trial.value, ranges.value);
  }
}
