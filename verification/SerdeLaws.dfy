/** Which vectors survive encoding and decoding, and which inputs the decoder takes. */
module SerdeLaws {
  import opened Outcomes
  import opened Octets
  import opened ParallelArkSerde

  // ---- Elements ----

  lemma {:induction false} EncodedLength<T(!new)>(codec: Codec<T>, es: nat, v: seq<T>)
    requires FixedSize(codec, es)
    ensures |EncodeAll(codec.enc, v)| == |v| * es
  {
    hide FixedSize;
    if v != [] {
      EncodedLength(codec, es, v[1..]);
      OneLength(codec, es, v[0]);
      OneMore(|v[1..]|, es);
    }
  }

  lemma OneLength<T(!new)>(codec: Codec<T>, es: nat, x: T)
    requires FixedSize(codec, es)
    ensures |codec.enc(x)| == es
  {
  }

  lemma OneMore(n: nat, es: nat)
    ensures (n + 1) * es == n * es + es
  {
  }

  lemma DecodeOne<T(!new)>(codec: Codec<T>, es: nat, x: T)
    requires FixedSize(codec, es)
    ensures codec.dec(codec.enc(x)) == Some(x)
  {
    assert codec.enc(x) + [] == codec.enc(x);
  }

  lemma OnePiece(piece: Bytes)
    ensures [piece][1..] == []
  {
  }

  lemma OneRange(range: Range)
    ensures [range][1..] == []
  {
  }

  /** Cutting encoded elements into pieces of their size and decoding the pieces gives them back. */
  lemma {:induction false} DecodeEncoded<T(!new)>(codec: Codec<T>, es: nat, v: seq<T>)
    requires FixedSize(codec, es)
    ensures DecodeAll(codec, Chunks(EncodeAll(codec.enc, v), es)) == Some(v)
  {
    if v != [] {
      var data, rest := EncodeAll(codec.enc, v), EncodeAll(codec.enc, v[1..]);
      EncodedLength(codec, es, v[1..]);
      DecodeOne(codec, es, v[0]);
      DecodeEncoded(codec, es, v[1..]);
      assert data[..es] == codec.enc(v[0]) && data[es..] == rest;
      if v[1..] == [] {
        assert data == codec.enc(v[0]);
        OnePiece(data);
      } else {
        Positive(|v[1..]|, es);
        assert Chunks(data, es)[1..] == Chunks(rest, es);
      }
      assert [v[0]] + v[1..] == v;
    }
  }

  lemma Positive(n: nat, es: nat)
    requires n > 0 && es > 0
    ensures n * es > 0
  {
  }

  // ---- The flat vector ----

  lemma ReadBack(raw: Bytes, pos: nat, n: nat)
    requires pos + 8 <= |raw| && raw[pos..pos + 8] == LittleEndian(n, 8) && n < WORD
    ensures ReadLength(raw, pos) == n
  {
    WordBound();
    DecodeEncode(n, 8);
  }

  /** The flat decoder inverts the flat encoder on every vector. */
  lemma FlatRoundTrip<T(!new)>(codec: Codec<T>, es: nat, v: seq<T>)
    requires FixedSize(codec, es) && |EncodeVec(codec.enc, v)| <= ISIZE_MAX
    ensures DecodeVec(codec, EncodeVec(codec.enc, v)) == Parsed(v)
  {
    hide FixedSize;
    var raw := EncodeVec(codec.enc, v);
    var rest := EncodeAll(codec.enc, v);
    EncodedLength(codec, es, v);
    EsPositive(codec, es);
    CountBelow(|v|, es);
    assert raw[0..8] == LittleEndian(|v|, 8) && raw[8..] == rest;
    ReadBack(raw, 0, |v|);
    if v != [] {
      Quotient(|v|, es);
      DecodeEncoded(codec, es, v);
    }
  }

  lemma EsPositive<T(!new)>(codec: Codec<T>, es: nat)
    requires FixedSize(codec, es)
    ensures es > 0
  {
  }

  lemma CountBelow(n: nat, es: nat)
    requires es > 0
    ensures n <= n * es
  {
  }

  lemma Quotient(n: nat, es: nat)
    requires n > 0
    ensures (n * es) % n == 0 && (n * es) / n == es
  {
    assert n * es == n * es + 0;
    QuotientIs(n, es, n * es);
  }

  lemma QuotientIs(n: nat, q: nat, m: nat)
    requires n > 0 && m == n * q
    ensures m / n == q && m % n == 0
  {
    var d, r := m / n, m % n;
    assert m == n * d + r && 0 <= r < n;
    assert n * (q - d) == n * q - n * d;
    Multiple(n, q - d);
  }

  lemma Multiple(n: nat, k: int)
    requires n > 0
    ensures k > 0 ==> n * k >= n
    ensures k < 0 ==> n * k <= 0 - n
  {
    if k > 0 {
      CountBelow(n, k);
    } else if k < 0 {
      CountBelow(n, 0 - k);
      assert n * (0 - k) == 0 - n * k;
    }
  }

  // ---- The nested vector ----

  function RowsLength<T>(rows: seq<seq<T>>, es: nat): nat {
    if rows == [] then 0 else 8 + |rows[0]| * es + RowsLength(rows[1..], es)
  }

  lemma {:induction false} EncodedRowsLength<T(!new)>(codec: Codec<T>, es: nat, rows: seq<seq<T>>)
    requires FixedSize(codec, es)
    ensures |EncodeRows(codec.enc, rows)| == RowsLength(rows, es)
  {
    if rows != [] {
      EncodedLength(codec, es, rows[0]);
      EncodedRowsLength(codec, es, rows[1..]);
    }
  }

  /** The length tells whether all rows are empty. */
  lemma {:induction false} RowsLengthBound<T>(rows: seq<seq<T>>, es: nat)
    requires es > 0
    ensures RowsLength(rows, es) >= 8 * |rows|
    ensures RowsLength(rows, es) == 8 * |rows| <==> AllEmpty(rows)
  {
    if rows != [] {
      RowsLengthBound(rows[1..], es);
      AllEmptyTail(rows);
      if rows[0] != [] {
        Positive(|rows[0]|, es);
      }
    }
  }

  ghost predicate AllEmpty<T>(rows: seq<seq<T>>) {
    forall row | row in rows :: row == []
  }

  lemma AllEmptyTail<T>(rows: seq<seq<T>>)
    requires rows != []
    ensures AllEmpty(rows) <==> rows[0] == [] && AllEmpty(rows[1..])
  {
    assert rows[0] in rows;
    assert forall row | row in rows[1..] :: row in rows;
    assert forall row | row in rows :: row == rows[0] || row in rows[1..];
  }

  function RangesOf<T>(rows: seq<seq<T>>, pos: nat, es: nat): (ranges: seq<Range>)
    ensures |ranges| == |rows|
  {
    if rows == [] then []
    else [Range(pos + 8, |rows[0]|)] + RangesOf(rows[1..], AfterRow(pos, rows[0], es), es)
  }

  /** Where the row after the one at `pos` begins. */
  function AfterRow<T>(pos: nat, row: seq<T>, es: nat): nat {
    pos + 8 + |row| * es
  }

  lemma FirstRow<T(!new)>(codec: Codec<T>, es: nat, raw: Bytes, pos: nat, rows: seq<seq<T>>)
    requires FixedSize(codec, es) && pos <= |raw| <= ISIZE_MAX && raw[pos..] == EncodeRows(codec.enc, rows) && rows != []
    ensures var next := AfterRow(pos, rows[0], es);
      && pos + 8 <= next <= |raw|
      && ReadLength(raw, pos) == |rows[0]|
      && RowEnd(pos + 8, |rows[0]|, es) == next
      && raw[pos + 8..next] == EncodeAll(codec.enc, rows[0])
      && raw[next..] == EncodeRows(codec.enc, rows[1..])
  {
    hide FixedSize, RowEnd, ReadLength;
    EncodedLength(codec, es, rows[0]);
    var row, rest := EncodeAll(codec.enc, rows[0]), EncodeRows(codec.enc, rows[1..]);
    assert EncodeRows(codec.enc, rows) == (LittleEndian(|rows[0]|, 8) + row) + rest;
    hide EncodeAll, EncodeRows;
    ThreePieces(raw, pos, LittleEndian(|rows[0]|, 8), row, rest);
    EsPositive(codec, es);
    CountBelow(|rows[0]|, es);
    ReadBack(raw, pos, |rows[0]|);
    NotWrapped(pos + 8, |rows[0]|, es);
  }

  lemma ThreePieces(raw: Bytes, pos: nat, a: Bytes, b: Bytes, c: Bytes)
    requires pos <= |raw| && raw[pos..] == (a + b) + c
    ensures var i, j := pos + |a|, pos + |a| + |b|;
      j <= |raw| && raw[pos..i] == a && raw[i..j] == b && raw[j..] == c
  {
    var tail := raw[pos..];
    assert tail[..|a|] == a && tail[|a|..|a| + |b|] == b && tail[|a| + |b|..] == c;
  }

  lemma DecodeFirstRow<T(!new)>(codec: Codec<T>, es: nat, raw: Bytes, pos: nat, rows: seq<seq<T>>)
    requires FixedSize(codec, es) && pos <= |raw| <= ISIZE_MAX && raw[pos..] == EncodeRows(codec.enc, rows) && rows != []
    ensures es > 0 && DecodeRow(codec, raw, es, Range(pos + 8, |rows[0]|)) == Parsed(rows[0])
  {
    hide FixedSize, RowEnd, EncodeRows, EncodeAll, AfterRow, ReadLength;
    EsPositive(codec, es);
    FirstRow(codec, es, raw, pos, rows);
    DecodeEncoded(codec, es, rows[0]);
  }

  lemma {:induction false} ScanEncoded<T(!new)>(codec: Codec<T>, es: nat, raw: Bytes, pos: nat, rows: seq<seq<T>>)
    requires FixedSize(codec, es) && pos <= |raw| <= ISIZE_MAX && raw[pos..] == EncodeRows(codec.enc, rows)
    ensures Scan(raw, es, pos, |rows|) == Some(RangesOf(rows, pos, es))
    ensures es > 0 && DecodeRanges(codec, raw, es, RangesOf(rows, pos, es)) == Parsed(rows)
    decreases rows
  {
    hide FixedSize, RowEnd, DecodeRow, EncodeRows, EncodeAll, AfterRow, ReadLength;
    EsPositive(codec, es);
    if rows != [] {
      var next := AfterRow(pos, rows[0], es);
      FirstRow(codec, es, raw, pos, rows);
      DecodeFirstRow(codec, es, raw, pos, rows);
      ScanEncoded(codec, es, raw, next, rows[1..]);
      ScanStep(raw, es, pos, |rows|);
      assert RangesOf(rows, pos, es)[1..] == RangesOf(rows[1..], next, es);
      assert [rows[0]] + rows[1..] == rows;
    }
  }

  /** The vectors that come back. */
  ghost predicate Survives<T>(rows: seq<seq<T>>) {
    rows == [] || rows[0] != [] || AllEmpty(rows)
  }

  /** The vector and its encoding can be held in memory. */
  ghost predicate InMemory<T>(codec: Codec<T>, rows: seq<seq<T>>) {
    |rows| * 24 <= ISIZE_MAX && |EncodeVecVec(codec.enc, rows)| <= ISIZE_MAX
  }

  /** The nested decoder returns the encoded vector when it is empty, when its first row is not,
      or when all rows are empty, and an error otherwise. */
  lemma NestedRoundTrip<T(!new)>(codec: Codec<T>, es: nat, rows: seq<seq<T>>)
    requires FixedSize(codec, es) && InMemory(codec, rows)
    ensures DecodeVecVec(codec, EncodeVecVec(codec.enc, rows)) == if Survives(rows) then Parsed(rows) else Malformed
  {
    hide FixedSize;
    var raw := EncodeVecVec(codec.enc, rows);
    assert raw[0..8] == LittleEndian(|rows|, 8) && raw[8..] == EncodeRows(codec.enc, rows);
    ReadBack(raw, 0, |rows|);
    if rows != [] {
      EsPositive(codec, es);
      EncodedRowsLength(codec, es, rows);
      RowsLengthBound(rows, es);
      FirstRow(codec, es, raw, 8, rows);
      if rows[0] == [] {
        EmptyRows(rows);
      } else {
        FirstElement(codec, es, raw, rows);
        ScanEncoded(codec, es, raw, 8, rows);
      }
    }
  }

  lemma EmptyRows<T>(rows: seq<seq<T>>)
    ensures AllEmpty(rows) ==> seq(|rows|, _ => []) == rows
  {
    if AllEmpty(rows) {
      assert forall i | 0 <= i < |rows| :: rows[i] in rows;
    }
  }

  lemma FirstElement<T(!new)>(codec: Codec<T>, es: nat, raw: Bytes, rows: seq<seq<T>>)
    requires FixedSize(codec, es) && rows != [] && rows[0] != []
    requires raw == EncodeVecVec(codec.enc, rows)
    ensures |raw| >= 16 && codec.trial(raw[16..]) == Some(es)
  {
    hide FixedSize, LittleEndian;
    var first, others, rows' := codec.enc(rows[0][0]), EncodeAll(codec.enc, rows[0][1..]), EncodeRows(codec.enc, rows[1..]);
    assert EncodeAll(codec.enc, rows[0]) == first + others;
    assert EncodeRows(codec.enc, rows) == LittleEndian(|rows[0]|, 8) + (first + others) + rows';
    hide EncodeAll, EncodeRows;
    AfterHeads(LittleEndian(|rows|, 8), LittleEndian(|rows[0]|, 8), first, others, rows');
    TrialOne(codec, es, rows[0][0], others + rows');
  }

  lemma AfterHeads(a: Bytes, b: Bytes, c: Bytes, d: Bytes, e: Bytes)
    ensures (a + (b + (c + d) + e))[|a| + |b|..] == c + (d + e)
  {
  }

  lemma TrialOne<T(!new)>(codec: Codec<T>, es: nat, x: T, rest: Bytes)
    requires FixedSize(codec, es)
    ensures codec.trial(codec.enc(x) + rest) == Some(es)
  {
  }

  /** A flat input that is laid out as a vector is decoded to it. */
  lemma LaidOutDecodes<T(!new)>(codec: Codec<T>, es: nat, raw: Bytes, v: seq<T>)
    requires FixedSize(codec, es) && |raw| <= ISIZE_MAX && LaidOut(raw, codec.enc, v, es)
    ensures DecodeVec(codec, raw) == Parsed(v)
  {
    hide FixedSize, LaidOut, DecodeVec, EncodeVec;
    SizedAll(codec, es, v);
    LaidOutIff(raw, codec.enc, v, es);
    FlatRoundTrip(codec, es, v);
  }

  lemma SizedAll<T(!new)>(codec: Codec<T>, es: nat, v: seq<T>)
    requires FixedSize(codec, es)
    ensures AllSized(codec.enc, v, es)
  {
  }

  /** A nested input that is laid out as rows is decoded to them, within the domain of the round trip. */
  lemma LaidOutRowsDecode<T(!new)>(codec: Codec<T>, es: nat, raw: Bytes, rows: seq<seq<T>>)
    requires FixedSize(codec, es) && |raw| <= ISIZE_MAX && |rows| * 24 <= ISIZE_MAX && LaidOutRows(raw, codec.enc, rows, es)
    ensures DecodeVecVec(codec, raw) == if Survives(rows) then Parsed(rows) else Malformed
  {
    hide FixedSize, LaidOutRows, DecodeVecVec, EncodeVecVec, AllSized, Survives;
    forall j | 0 <= j < |rows| ensures AllSized(codec.enc, rows[j], es) {
      SizedAll(codec, es, rows[j]);
    }
    LaidOutRowsIff(raw, codec.enc, rows, es);
    NestedRoundTrip(codec, es, rows);
  }

  // ---- The scan ----

  /** No row length that the scan reads makes the arithmetic wrap around. */
  predicate NoWrap(raw: Bytes, es: nat, pos: nat, count: nat)
    decreases count
  {
    count > 0 && pos + 8 <= |raw| ==>
      var end := pos + 8 + ReadLength(raw, pos) * es;
      end < WORD && NoWrap(raw, es, end, count - 1)
  }

  /** The ranges of a scan that did not wrap: as many as there are rows, within the input, one
      after the other, with just the eight bytes of a length between them. */
  lemma {:induction false} ScanTiles(raw: Bytes, es: nat, pos: nat, count: nat)
    requires Scan(raw, es, pos, count).Some? && NoWrap(raw, es, pos, count)
    ensures var ranges := Scan(raw, es, pos, count).value;
      && |ranges| == count
      && (count > 0 ==> ranges[0].start == pos + 8)
      && (forall i | 0 <= i < count :: ranges[i].start + ranges[i].count * es <= |raw|)
      && (forall i | 0 <= i < count - 1 :: ranges[i + 1].start == ranges[i].start + ranges[i].count * es + 8)
    decreases count
  {
    if count > 0 {
      var end := pos + 8 + ReadLength(raw, pos) * es;
      ScanTiles(raw, es, end, count - 1);
      var ranges := Scan(raw, es, pos, count).value;
      var later := Scan(raw, es, end, count - 1).value;
      assert ranges == [Range(pos + 8, ReadLength(raw, pos))] + later;
      forall i | 0 <= i < count - 1 ensures ranges[i + 1].start == ranges[i].start + ranges[i].count * es + 8 {
        if i > 0 {
          assert later[i].start == later[i - 1].start + later[i - 1].count * es + 8;
        }
      }
    }
  }

  // ---- Encoding what was decoded ----

  lemma {:induction false} ChunkCount(data: Bytes, es: nat)
    requires es > 0
    ensures |Chunks(data, es)| * es < |data| + es
    ensures |Chunks(data, es)| <= |data|
    decreases |data|
  {
    if |data| > es {
      ChunkCount(data[es..], es);
      assert |Chunks(data, es)| * es == |Chunks(data[es..], es)| * es + es;
    }
  }

  lemma {:induction false} DecodedCount<T>(codec: Codec<T>, chunks: seq<Bytes>)
    requires DecodeAll(codec, chunks).Some?
    ensures |DecodeAll(codec, chunks).value| == |chunks|
  {
    if chunks != [] {
      DecodedCount(codec, chunks[1..]);
    }
  }

  /** What is decoded from pieces of the element size encodes to those pieces. */
  lemma {:induction false} EncodeDecoded<T(!new)>(codec: Codec<T>, es: nat, data: Bytes, n: nat)
    requires FixedSize(codec, es) && CanonicalCodec(codec) && |data| == n * es
    requires DecodeAll(codec, Chunks(data, es)).Some?
    ensures var v := DecodeAll(codec, Chunks(data, es)).value; |v| == n && EncodeAll(codec.enc, v) == data
    decreases n
  {
    hide FixedSize, CanonicalCodec;
    EsPositive(codec, es);
    if n > 0 {
      assert n * es == (n - 1) * es + es;
      var head, rest := data[..es], data[es..];
      FirstChunk(data, es);
      var x := codec.dec(head).value;
      CanonicalOne(codec, es, head);
      if n == 1 {
        assert data == head && Chunks(data, es) == [head];
        OnePiece(head);
        assert codec.enc(x) + [] == codec.enc(x);
      } else {
        Positive(n - 1, es);
        assert Chunks(data, es)[1..] == Chunks(rest, es);
        EncodeDecoded(codec, es, rest, n - 1);
        var v := DecodeAll(codec, Chunks(data, es)).value;
        assert v[1..] == DecodeAll(codec, Chunks(rest, es)).value;
        assert head + rest == data;
      }
    }
  }

  lemma FirstChunk(data: Bytes, es: nat)
    requires 0 < es <= |data|
    ensures Chunks(data, es) != [] && Chunks(data, es)[0] == data[..es]
  {
    assert |data| == es ==> data[..es] == data;
  }

  lemma CanonicalOne<T(!new)>(codec: Codec<T>, es: nat, head: Bytes)
    requires FixedSize(codec, es) && CanonicalCodec(codec) && |head| == es && codec.dec(head).Some?
    ensures codec.enc(codec.dec(head).value) == head
  {
    var x := codec.dec(head).value;
    assert codec.enc(x) <= head && |codec.enc(x)| == es;
  }

  lemma RowBytes<T(!new)>(codec: Codec<T>, es: nat, raw: Bytes, pos: nat)
    requires FixedSize(codec, es) && CanonicalCodec(codec) && pos + 8 <= |raw| <= ISIZE_MAX
    requires pos + 8 + ReadLength(raw, pos) * es <= |raw|
    requires es > 0 && DecodeRow(codec, raw, es, Range(pos + 8, ReadLength(raw, pos))).Parsed?
    ensures var row := DecodeRow(codec, raw, es, Range(pos + 8, ReadLength(raw, pos))).value;
      EncodeVec(codec.enc, row) == raw[pos..pos + 8 + ReadLength(raw, pos) * es]
  {
    hide FixedSize, CanonicalCodec, Chunks, DecodeAll, EncodeAll;
    var n := ReadLength(raw, pos);
    var end := pos + 8 + n * es;
    EncodeDecoded(codec, es, raw[pos + 8..end], n);
    EncodeDecode(raw[pos..pos + 8]);
    assert raw[pos..pos + 8] + raw[pos + 8..end] == raw[pos..end];
  }

  /** When the arithmetic of the first row wraps, the row comes out with another length. */
  lemma WrappedRow<T(!new)>(codec: Codec<T>, es: nat, raw: Bytes, pos: nat)
    requires pos + 8 <= |raw| <= ISIZE_MAX && 0 < es <= |raw|
    requires pos + 8 + ReadLength(raw, pos) * es >= WORD
    requires DecodeRow(codec, raw, es, Range(pos + 8, ReadLength(raw, pos))).Parsed?
    ensures var row := DecodeRow(codec, raw, es, Range(pos + 8, ReadLength(raw, pos))).value;
      |row| < WORD && |row| != ReadLength(raw, pos)
  {
    hide Chunks, DecodeAll;
    var n := ReadLength(raw, pos);
    var end := RowEnd(pos + 8, n, es);
    var data := raw[pos + 8..end];
    ChunkCount(data, es);
    DecodedCount(codec, Chunks(data, es));
    if n * es < WORD {
      WrapsBack(pos + 8, n, es);
    }
  }

  lemma WrapsBack(start: nat, n: nat, es: nat)
    requires start < WORD && n * es < WORD && start + n * es >= WORD
    ensures RowEnd(start, n, es) < start
  {
    var m := start + n * es - WORD;
    assert (m + WORD) % WORD == m;
  }

  lemma PrefixSplit(a: Bytes, b: Bytes, raw: Bytes, pos: nat, end: nat)
    requires pos <= end <= |raw| && a == raw[pos..end]
    ensures a + b <= raw[pos..] <==> b <= raw[end..]
  {
    assert raw[pos..] == a + raw[end..];
    if a + b <= raw[pos..] {
      assert (a + b)[|a|..] == b;
      assert raw[pos..][|a|..] == raw[end..];
    }
  }

  lemma PrefixTail(a: Bytes, b: Bytes, raw: Bytes)
    requires |a| <= |raw|
    ensures a + b <= raw ==> b <= raw[|a|..]
  {
    if a + b <= raw {
      assert (a + b)[|a|..] == b;
    }
  }

  lemma LengthsDiffer(m: nat, n: nat, raw: Bytes, pos: nat, rest: Bytes)
    requires m < WORD && pos + 8 <= |raw| && ReadLength(raw, pos) != m
    ensures !(LittleEndian(m, 8) + rest <= raw[pos..])
  {
    if LittleEndian(m, 8) + rest <= raw[pos..] {
      assert (LittleEndian(m, 8) + rest)[..8] == LittleEndian(m, 8);
      assert raw[pos..][..8] == raw[pos..pos + 8];
      ReadBack(raw, pos, m);
    }
  }

  lemma {:induction false} ReencodeIff<T(!new)>(codec: Codec<T>, es: nat, raw: Bytes, pos: nat, count: nat)
    requires FixedSize(codec, es) && CanonicalCodec(codec) && es > 0 && pos <= |raw| <= ISIZE_MAX && es <= |raw|
    requires Scan(raw, es, pos, count).Some?
    requires DecodeRanges(codec, raw, es, Scan(raw, es, pos, count).value).Parsed?
    ensures EncodeRows(codec.enc, DecodeRanges(codec, raw, es, Scan(raw, es, pos, count).value).value) <= raw[pos..]
       <==> NoWrap(raw, es, pos, count)
    decreases count
  {
    hide FixedSize, CanonicalCodec, RowEnd, DecodeRow, EncodeAll, ReadLength;
    if count > 0 {
      var n := ReadLength(raw, pos);
      var next := RowEnd(pos + 8, n, es);
      var first := Range(pos + 8, n);
      var ranges := Scan(raw, es, pos, count).value;
      var later := Scan(raw, es, next, count - 1).value;
      ScanStep(raw, es, pos, count);
      assert ranges == [first] + later && ranges[1..] == later;
      var rows := DecodeRanges(codec, raw, es, ranges).value;
      var row, rest := DecodeRow(codec, raw, es, first).value, DecodeRanges(codec, raw, es, later).value;
      assert rows == [row] + rest && rows[1..] == rest;
      ReencodeIff(codec, es, raw, next, count - 1);
      var end := pos + 8 + n * es;
      if end < WORD {
        NotWrapped(pos + 8, n, es);
        RowBytes(codec, es, raw, pos);
        PrefixSplit(EncodeVec(codec.enc, row), EncodeRows(codec.enc, rest), raw, pos, end);
      } else {
        WrappedRow(codec, es, raw, pos);
        LengthsDiffer(|row|, n, raw, pos, EncodeAll(codec.enc, row) + EncodeRows(codec.enc, rest));
        assert EncodeVec(codec.enc, row) + EncodeRows(codec.enc, rest)
            == LittleEndian(|row|, 8) + (EncodeAll(codec.enc, row) + EncodeRows(codec.enc, rest));
      }
    }
  }

  lemma NotWrapped(start: nat, n: nat, es: nat)
    requires start + n * es < WORD
    ensures RowEnd(start, n, es) == start + n * es
  {
  }

  /** When decoding succeeds and the first row is not empty, encoding the result gives a prefix
      of the input exactly when no row length of the input makes the 64-bit arithmetic wrap. */
  lemma DecodedReencodes<T(!new)>(codec: Codec<T>, es: nat, raw: Bytes)
    requires FixedSize(codec, es) && CanonicalCodec(codec) && 16 <= |raw| <= ISIZE_MAX
    requires ReadLength(raw, 0) != 0 && ReadLength(raw, 8) != 0
    requires DecodeVecVec(codec, raw).Parsed?
    ensures EncodeVecVec(codec.enc, DecodeVecVec(codec, raw).value) <= raw <==> NoWrap(raw, es, 8, ReadLength(raw, 0))
  {
    hide FixedSize, Scan, DecodeRanges, EncodeRows, NoWrap;
    var count := ReadLength(raw, 0);
    TrialSize(codec, es, raw[16..]);
    EsPositive(codec, es);
    var ranges := Scan(raw, es, 8, count).value;
    var rows := DecodeRanges(codec, raw, es, ranges).value;
    ReencodeIff(codec, es, raw, 8, count);
    RowCounts(codec, raw, es, ranges);
    ScanCount(raw, es, 8, count);
    EncodeDecode(raw[0..8]);
    PrefixSplit(LittleEndian(count, 8), EncodeRows(codec.enc, rows), raw, 0, 8);
    assert raw[0..] == raw;
  }

  lemma TrialSize<T(!new)>(codec: Codec<T>, es: nat, b: Bytes)
    requires FixedSize(codec, es) && CanonicalCodec(codec) && codec.trial(b).Some?
    ensures codec.trial(b).value == es <= |b|
  {
    var n := codec.trial(b).value;
    var x: T :| |codec.enc(x)| == n;
  }

  /** One row whose length wraps around to that of the one element that follows. */
  function WrappingInput<T>(codec: Codec<T>, x: T): Bytes {
    LittleEndian(1, 8) + LittleEndian(WRAPPING_LENGTH, 8) + codec.enc(x)
  }

  /** 48 times this number is 48 more than three times 2 to the 64. */
  const WRAPPING_LENGTH: nat := 0x1000_0000_0000_0001

  lemma WrappingInputIs<T(!new)>(codec: Codec<T>, x: T)
    requires FixedSize(codec, 48)
    ensures var raw := WrappingInput(codec, x);
      && |raw| == 64 && raw[16..64] == raw[16..] == codec.enc(x)
      && ReadLength(raw, 0) == 1 && ReadLength(raw, 8) == WRAPPING_LENGTH
      && codec.trial(raw[16..]) == Some(48)
  {
    var raw := WrappingInput(codec, x);
    assert raw[0..8] == LittleEndian(1, 8) && raw[8..16] == LittleEndian(WRAPPING_LENGTH, 8) && raw[16..] == codec.enc(x);
    ReadBack(raw, 0, 1);
    ReadBack(raw, 8, WRAPPING_LENGTH);
    assert codec.enc(x) + [] == codec.enc(x);
    TrialOne(codec, 48, x, []);
  }

  lemma WrappingRow<T(!new)>(codec: Codec<T>, x: T)
    requires FixedSize(codec, 48)
    ensures |WrappingInput(codec, x)| == 64
    ensures DecodeRow(codec, WrappingInput(codec, x), 48, Range(16, WRAPPING_LENGTH)) == Parsed([x])
  {
    WrappingInputIs(codec, x);
    assert EncodeAll(codec.enc, [x]) == codec.enc(x) by {
      assert EncodeAll(codec.enc, [x]) == codec.enc(x) + EncodeAll(codec.enc, [x][1..]);
      assert codec.enc(x) + [] == codec.enc(x);
    }
    DecodeEncoded(codec, 48, [x]);
    hide FixedSize, WrappingInput, Chunks, DecodeAll;
    assert RowEnd(16, WRAPPING_LENGTH, 48) == 64;
  }

  /** A length that wraps around is taken for a short one: the row comes out with one element,
      and encoding the result does not give the input back. */
  lemma WrappedLengthAccepted<T(!new)>(codec: Codec<T>, x: T)
    requires FixedSize(codec, 48)
    ensures DecodeVecVec(codec, WrappingInput(codec, x)) == Parsed([[x]])
    ensures !(EncodeVecVec(codec.enc, [[x]]) <= WrappingInput(codec, x))
  {
    hide FixedSize, DecodeRow, WrappingInput, EncodeAll;
    var raw := WrappingInput(codec, x);
    WrappingInputIs(codec, x);
    WrappingRow(codec, x);
    var first := Range(16, WRAPPING_LENGTH);
    assert RowEnd(16, WRAPPING_LENGTH, 48) == 64;
    hide RowEnd;
    ScanStep(raw, 48, 8, 1);
    assert Scan(raw, 48, 64, 0) == Some([]);
    assert [first] + [] == [first];
    OneRange(first);
    assert DecodeRanges(codec, raw, 48, []) == Parsed([]);
    assert DecodeRanges(codec, raw, 48, [first]) == Parsed([[x]] + []);
    assert [[x]] + [] == [[x]];
    var rest := EncodeAll(codec.enc, [x]) + EncodeRows(codec.enc, [[x]][1..]);
    assert EncodeVecVec(codec.enc, [[x]]) == LittleEndian(1, 8) + (LittleEndian(1, 8) + rest);
    LengthsDiffer(1, WRAPPING_LENGTH, raw, 8, rest);
    PrefixTail(LittleEndian(1, 8), LittleEndian(1, 8) + rest, raw);
  }

  // ---- Inputs of which not every byte is looked at ----

  function Zeros(n: nat): (r: Bytes)
    ensures |r| == n
  {
    seq(n, _ => 0)
  }

  lemma {:induction false} LittleEndianZero(width: nat)
    ensures LittleEndian(0, width) == Zeros(width)
  {
    if width > 0 {
      LittleEndianZero(width - 1);
    }
  }

  lemma {:induction false} EncodeEmptyRows<T(!new)>(enc: T -> Bytes, n: nat)
    ensures EncodeRows(enc, seq(n, _ => [])) == Zeros(8 * n)
  {
    if n > 0 {
      var rows: seq<seq<T>> := seq(n, _ => []);
      assert rows[1..] == seq(n - 1, _ => []);
      EncodeEmptyRows(enc, n - 1);
      LittleEndianZero(8);
      assert EncodeVec(enc, rows[0]) == Zeros(8);
    }
  }

  /** When the first row is announced as empty, only the number of the following bytes matters:
      what was decoded encodes to the input exactly when they are all zero. */
  lemma EmptyRowsReencode<T(!new)>(codec: Codec<T>, raw: Bytes)
    requires 16 <= |raw| <= ISIZE_MAX && ReadLength(raw, 0) != 0 && ReadLength(raw, 8) == 0
    requires DecodeVecVec(codec, raw).Parsed?
    ensures EncodeVecVec(codec.enc, DecodeVecVec(codec, raw).value) == raw <==> raw[16..] == Zeros(|raw| - 16)
  {
    hide LittleEndian, FromLittleEndian;
    var n := ReadLength(raw, 0);
    EncodeEmptyRows(codec.enc, n);
    EncodeDecode(raw[0..8]);
    EncodeDecode(raw[8..16]);
    LittleEndianZero(8);
    var again := EncodeVecVec(codec.enc, DecodeVecVec(codec, raw).value);
    assert again == raw[0..8] + Zeros(8 * n);
    assert raw == raw[0..8] + raw[8..16] + raw[16..];
    assert raw[8..16] == Zeros(8);
    assert Zeros(8 * n) == Zeros(8) + Zeros(|raw| - 16);
    if again == raw {
      assert again[16..] == Zeros(|raw| - 16);
    }
  }

  /** Two rows, the first announced as empty and the second as having five elements. */
  function UnreadInput(): Bytes {
    LittleEndian(2, 8) + LittleEndian(0, 8) + LittleEndian(5, 8)
  }

  lemma UnreadInputIs()
    ensures var raw := UnreadInput();
      |raw| == 24 && ReadLength(raw, 0) == 2 && ReadLength(raw, 8) == 0 && raw[16..] != Zeros(8)
  {
    assert LittleEndian(5, 8)[0] == 5;
    hide LittleEndian, ReadLength;
    Announced(2, 0, LittleEndian(5, 8));
  }

  /** The second length is not read: both rows come out empty. */
  lemma UnreadLengthAccepted<T(!new)>(codec: Codec<T>)
    ensures DecodeVecVec(codec, UnreadInput()) == Parsed([[], []])
    ensures EncodeVecVec(codec.enc, [[], []]) != UnreadInput()
  {
    hide UnreadInput, ReadLength, EncodeVecVec, Zeros;
    UnreadInputIs();
    var rows: seq<seq<T>> := seq(2, _ => []);
    assert rows == [[], []];
    EmptyRowsReencode(codec, UnreadInput());
  }

  lemma {:induction false} ChunksExact(data: Bytes, e: nat, n: nat)
    requires e > 0 && |data| == n * e
    ensures |Chunks(data, e)| == n
    decreases n
  {
    if n > 0 {
      assert n * e == (n - 1) * e + e;
      if n > 1 {
        Positive(n - 1, e);
        ChunksExact(data[e..], e, n - 1);
      }
    }
  }

  /** The flat decoder takes the element size from the length, so it also takes elements that
      are followed by padding: what was decoded has the announced count, and encodes to the input
      exactly when the length is that of so many elements. */
  lemma FlatReencodes<T(!new)>(codec: Codec<T>, es: nat, raw: Bytes)
    requires FixedSize(codec, es) && CanonicalCodec(codec) && 8 <= |raw| <= ISIZE_MAX
    requires DecodeVec(codec, raw).Parsed?
    ensures |DecodeVec(codec, raw).value| == ReadLength(raw, 0)
    ensures EncodeVec(codec.enc, DecodeVec(codec, raw).value) == raw <==> |raw| == 8 + ReadLength(raw, 0) * es
  {
    hide FixedSize, CanonicalCodec, LittleEndian, FromLittleEndian;
    var v := DecodeVec(codec, raw).value;
    var n := ReadLength(raw, 0);
    var rest := raw[8..];
    EncodedLength(codec, es, v);
    EncodeDecode(raw[0..8]);
    assert raw == raw[0..8] + rest;
    if n > 0 {
      var e := |rest| / n;
      assert |rest| == n * e;
      ChunksExact(rest, e, n);
      DecodedCount(codec, Chunks(rest, e));
      if |raw| == 8 + |v| * es {
        EncodeDecodedWhole(codec, es, rest, n, e);
      }
    }
  }

  lemma EncodeDecodedWhole<T(!new)>(codec: Codec<T>, es: nat, rest: Bytes, n: nat, e: nat)
    requires FixedSize(codec, es) && CanonicalCodec(codec) && n > 0 && e > 0 && |rest| == n * e && n * e == n * es
    requires DecodeAll(codec, Chunks(rest, e)).Some?
    ensures EncodeAll(codec.enc, DecodeAll(codec, Chunks(rest, e)).value) == rest
  {
    hide FixedSize, CanonicalCodec, DecodeAll, Chunks, EncodeAll;
    assert n * (e - es) == n * e - n * es;
    Multiple(n, e - es);
    EncodeDecoded(codec, es, rest, n);
  }

  /** One element and one byte more. */
  function PaddedInput<T>(codec: Codec<T>, x: T): Bytes {
    LittleEndian(1, 8) + (codec.enc(x) + [0])
  }

  /** It is taken for an element of one byte more. */
  lemma PaddingAccepted<T(!new)>(codec: Codec<T>, es: nat, x: T)
    requires FixedSize(codec, es)
    ensures DecodeVec(codec, PaddedInput(codec, x)) == Parsed([x])
    ensures EncodeVec(codec.enc, [x]) != PaddedInput(codec, x)
  {
    var raw, piece := PaddedInput(codec, x), codec.enc(x) + [0];
    assert raw[0..8] == LittleEndian(1, 8) && raw[8..] == piece;
    ReadBack(raw, 0, 1);
    Quotient(1, |piece|);
    assert Chunks(piece, |piece|) == [piece];
    OnePiece(piece);
    assert DecodeAll(codec, []) == Some([]);
    assert [x] + [] == [x];
    EncodedLength(codec, es, [x]);
  }

  /** A count without any bytes is what the flat decoder does not survive. */
  lemma FlatPanicsIff<T(!new)>(codec: Codec<T>, raw: Bytes)
    ensures DecodeVec(codec, raw).Panicked? <==> |raw| == 8 && ReadLength(raw, 0) != 0
  {
    hide ReadLength, Chunks, DecodeAll;
    if |raw| >= 8 && ReadLength(raw, 0) != 0 {
      DividesToZero(|raw[8..]|, ReadLength(raw, 0));
    }
  }

  lemma DividesToZero(m: nat, n: nat)
    requires n > 0
    ensures m % n == 0 && m / n == 0 <==> m == 0
  {
    assert m == n * (m / n) + m % n;
    if m == 0 {
      QuotientIs(n, 0, m);
    }
  }

  // ---- When the nested decoder panics ----

  /** Every row whose length is read ends within the input, in 64-bit arithmetic. */
  predicate RowsFit(raw: Bytes, es: nat, pos: nat, count: nat)
    decreases count
  {
    || count == 0
    || (pos + 8 <= |raw| && RowEnd(pos + 8, ReadLength(raw, pos), es) <= |raw|
        && RowsFit(raw, es, RowEnd(pos + 8, ReadLength(raw, pos), es), count - 1))
  }

  /** Some length that is read makes its row end before it begins. */
  predicate EndsBackwards(raw: Bytes, es: nat, pos: nat, count: nat)
    decreases count
  {
    count > 0 && pos + 8 <= |raw|
    && (RowEnd(pos + 8, ReadLength(raw, pos), es) < pos + 8
        || EndsBackwards(raw, es, RowEnd(pos + 8, ReadLength(raw, pos), es), count - 1))
  }

  lemma {:induction false} ScansIff(raw: Bytes, es: nat, pos: nat, count: nat)
    ensures Scan(raw, es, pos, count).Some? <==> RowsFit(raw, es, pos, count)
    decreases count
  {
    if count > 0 && pos + 8 <= |raw| {
      ScansIff(raw, es, RowEnd(pos + 8, ReadLength(raw, pos), es), count - 1);
    }
  }

  lemma {:induction false} RowsPanicIff<T>(codec: Codec<T>, raw: Bytes, es: nat, pos: nat, count: nat)
    requires es > 0 && Scan(raw, es, pos, count).Some?
    ensures DecodeRanges(codec, raw, es, Scan(raw, es, pos, count).value).Panicked? <==> EndsBackwards(raw, es, pos, count)
    decreases count
  {
    hide RowEnd, ReadLength, Chunks, DecodeAll;
    if count > 0 {
      var first := Range(pos + 8, ReadLength(raw, pos));
      var next := RowEnd(pos + 8, ReadLength(raw, pos), es);
      ScanStep(raw, es, pos, count);
      RowsPanicIff(codec, raw, es, next, count - 1);
      var ranges, later := Scan(raw, es, pos, count).value, Scan(raw, es, next, count - 1).value;
      assert ranges[0] == first && ranges[1..] == later;
    }
  }

  /** Lengths at which the nested decoder asks for more memory than can be asked for, or slices a
      row backwards. */
  ghost predicate Fatal<T>(codec: Codec<T>, es: nat, raw: Bytes)
    requires |raw| >= 16
  {
    var count := ReadLength(raw, 0);
    if ReadLength(raw, 8) == 0 then |raw| == Wrapped(8 + Wrapped(count * 8)) && count * 24 > ISIZE_MAX
    else codec.trial(raw[16..]).Some? && (count * 16 > ISIZE_MAX || (RowsFit(raw, es, 8, count) && EndsBackwards(raw, es, 8, count)))
  }

  /** The nested decoder panics exactly there. */
  lemma NestedPanicsIff<T(!new)>(codec: Codec<T>, es: nat, raw: Bytes)
    requires FixedSize(codec, es) && CanonicalCodec(codec)
    ensures DecodeVecVec(codec, raw).Panicked? <==> |raw| >= 16 && ReadLength(raw, 0) != 0 && Fatal(codec, es, raw)
  {
    hide FixedSize, CanonicalCodec, Scan, DecodeRanges, RowsFit, EndsBackwards, ReadLength;
    if |raw| >= 16 && ReadLength(raw, 0) != 0 && ReadLength(raw, 8) != 0 && codec.trial(raw[16..]).Some? {
      TrialSize(codec, es, raw[16..]);
      EsPositive(codec, es);
      ScansIff(raw, es, 8, ReadLength(raw, 0));
      if Scan(raw, es, 8, ReadLength(raw, 0)).Some? {
        RowsPanicIff(codec, raw, es, 8, ReadLength(raw, 0));
      }
    }
  }

  lemma {:induction false} NoWrapNotBackwards(raw: Bytes, es: nat, pos: nat, count: nat)
    requires NoWrap(raw, es, pos, count)
    ensures !EndsBackwards(raw, es, pos, count)
    decreases count
  {
    hide RowEnd, ReadLength;
    if count > 0 && pos + 8 <= |raw| {
      NotWrapped(pos + 8, ReadLength(raw, pos), es);
      NoWrapNotBackwards(raw, es, pos + 8 + ReadLength(raw, pos) * es, count - 1);
    }
  }

  /** So an input whose count can be allocated and whose lengths do not wrap is decoded or refused. */
  lemma NoWrapNoPanic<T(!new)>(codec: Codec<T>, es: nat, raw: Bytes)
    requires FixedSize(codec, es) && CanonicalCodec(codec)
    requires |raw| >= 8 ==> ReadLength(raw, 0) * 24 <= ISIZE_MAX && NoWrap(raw, es, 8, ReadLength(raw, 0))
    ensures !DecodeVecVec(codec, raw).Panicked?
  {
    hide FixedSize, CanonicalCodec, NoWrap, EndsBackwards, ReadLength, RowsFit, DecodeVecVec;
    NestedPanicsIff(codec, es, raw);
    if |raw| >= 16 {
      NoWrapNotBackwards(raw, es, 8, ReadLength(raw, 0));
    }
  }

  /** 48 times this number is 16 less than a multiple of 2 to the 64. */
  const BACKWARD_LENGTH: nat := 0x0555_5555_5555_5555

  /** Three inputs that end the process: a count that wraps around to that of one empty row, a
      count of 2 to the 62 before one element, and one row of which the end wraps around to zero. */
  lemma NestedPanics<T(!new)>(codec: Codec<T>, x: T)
    requires FixedSize(codec, 48) && CanonicalCodec(codec)
    ensures DecodeVecVec(codec, LittleEndian(0x2000_0000_0000_0001, 8) + LittleEndian(0, 8) + []).Panicked?
    ensures DecodeVecVec(codec, LittleEndian(0x4000_0000_0000_0000, 8) + LittleEndian(1, 8) + codec.enc(x)).Panicked?
    ensures DecodeVecVec(codec, LittleEndian(1, 8) + LittleEndian(BACKWARD_LENGTH, 8) + codec.enc(x)).Panicked?
  {
    hide FixedSize, CanonicalCodec, LittleEndian, DecodeVecVec, ReadLength, RowsFit, EndsBackwards;
    Announced(0x2000_0000_0000_0001, 0, []);
    NestedPanicsIff(codec, 48, LittleEndian(0x2000_0000_0000_0001, 8) + LittleEndian(0, 8) + []);
    assert codec.enc(x) + [] == codec.enc(x);
    TrialOne(codec, 48, x, []);
    Announced(0x4000_0000_0000_0000, 1, codec.enc(x));
    NestedPanicsIff(codec, 48, LittleEndian(0x4000_0000_0000_0000, 8) + LittleEndian(1, 8) + codec.enc(x));
    Announced(1, BACKWARD_LENGTH, codec.enc(x));
    EndsAtZero(LittleEndian(1, 8) + LittleEndian(BACKWARD_LENGTH, 8) + codec.enc(x));
    NestedPanicsIff(codec, 48, LittleEndian(1, 8) + LittleEndian(BACKWARD_LENGTH, 8) + codec.enc(x));
  }

  lemma Announced(count: nat, first: nat, rest: Bytes)
    requires count < WORD && first < WORD
    ensures var raw := LittleEndian(count, 8) + LittleEndian(first, 8) + rest;
      |raw| == 16 + |rest| && ReadLength(raw, 0) == count && ReadLength(raw, 8) == first && raw[16..] == rest
  {
    hide LittleEndian, ReadLength;
    var raw := LittleEndian(count, 8) + LittleEndian(first, 8) + rest;
    assert raw[0..8] == LittleEndian(count, 8) && raw[8..16] == LittleEndian(first, 8) && raw[16..] == rest;
    ReadBack(raw, 0, count);
    ReadBack(raw, 8, first);
  }

  lemma EndsAtZero(raw: Bytes)
    requires |raw| >= 16 && ReadLength(raw, 8) == BACKWARD_LENGTH
    ensures RowsFit(raw, 48, 8, 1) && EndsBackwards(raw, 48, 8, 1)
  {
    hide ReadLength;
    assert RowEnd(16, BACKWARD_LENGTH, 48) == 0;
  }
}
