/** Copying the visible picture out of the driver's mapping, rows split over threads. */
module PlaneCopy {
  import opened Common

  // ---- arithmetic -------------------------------------------------------

  lemma TimesUpTo(x: nat, y: nat, b: nat)
    requires x <= y
    ensures x * b <= y * b
  {
    if x < y { Times(x, y, b); }
  }

  // ---- geometry ---------------------------------------------------------

  /** The picture inside the coded frame, and the length of the mapping. */
  datatype Geometry = Geometry(stride: nat, codedHeight: nat, top: nat, left: nat, width: nat, height: nat, mapped: nat)

  /** The check before a copy. */
  predicate Accepted(g: Geometry) {
    g.stride * g.codedHeight * 3 / 2 <= g.mapped && g.top + g.height <= g.codedHeight && g.left + g.width <= g.stride
  }

  /** A plane to copy: its first visible byte and its rows. */
  datatype Plane = Plane(base: nat, rows: nat)

  function Luma(g: Geometry): Plane { Plane(g.top * g.stride + g.left, g.height) }

  function Chroma(g: Geometry): Plane { Plane(g.stride * g.codedHeight + g.top / 2 * g.stride + g.left, g.height / 2) }

  /** What the copy asserts of a plane: its last row ends inside the mapping. */
  predicate Inside(p: Plane, stride: nat, w: nat, mapped: nat) {
    p.rows == 0 || p.base + (p.rows - 1) * stride + w <= mapped
  }

  lemma HalfRows(stride: nat, coded: nat)
    ensures stride * coded + coded / 2 * stride <= stride * coded * 3 / 2
  {
    var half := coded / 2;
    TimesUpTo(half * 2, coded, stride);
    assert half * 2 * stride == 2 * (half * stride) && coded * stride == stride * coded;
  }

  lemma RowsEnd(at: nat, rows: nat, stride: nat, left: nat, w: nat)
    requires rows > 0 && left + w <= stride
    ensures (at * stride + left) + (rows - 1) * stride + w <= (at + rows) * stride
  {
    assert (at + rows) * stride == at * stride + (rows - 1) * stride + stride;
  }

  /** The check is enough for the copy's own assertions: for both planes, odd heights
      and odd offsets included. */
  lemma AcceptedIsInside(g: Geometry)
    requires Accepted(g)
    ensures Inside(Luma(g), g.stride, g.width, g.mapped) && Inside(Chroma(g), g.stride, g.width, g.mapped)
  {
    var s, c := g.stride, g.codedHeight;
    HalfRows(s, c);
    if g.height > 0 {
      RowsEnd(g.top, g.height, s, g.left, g.width);
      TimesUpTo(g.top + g.height, c, s);
      assert c * s == s * c;
    }
    if g.height / 2 > 0 {
      RowsEnd(g.top / 2, g.height / 2, s, g.left, g.width);
      TimesUpTo(g.top / 2 + g.height / 2, c / 2, s);
    }
  }

  // ---- the picture ------------------------------------------------------

  /** Both planes, one behind the other. */
  datatype Job = Job(src: seq<u8>, stride: nat, w: nat, y: Plane, uv: Plane)

  function Rows(j: Job): nat { j.y.rows + j.uv.rows }

  predicate Sound(j: Job) { Inside(j.y, j.stride, j.w, |j.src|) && Inside(j.uv, j.stride, j.w, |j.src|) }

  /** Where a row starts in the mapping. */
  function RowSrc(j: Job, r: nat): nat {
    if r < j.y.rows then j.y.base + r * j.stride else j.uv.base + (r - j.y.rows) * j.stride
  }

  lemma RowFits(j: Job, r: nat)
    requires Sound(j) && r < Rows(j)
    ensures RowSrc(j, r) + j.w <= |j.src|
  {
    if r < j.y.rows {
      TimesUpTo(r, j.y.rows - 1, j.stride);
    } else {
      TimesUpTo(r - j.y.rows, j.uv.rows - 1, j.stride);
    }
  }

  function Row(j: Job, r: nat): (s: seq<u8>)
    requires Sound(j) && r < Rows(j)
    ensures |s| == j.w
  {
    RowFits(j, r);
    j.src[RowSrc(j, r)..RowSrc(j, r) + j.w]
  }

  /** The first `n` rows, copied one behind the other. */
  function Crop(j: Job, n: nat): (s: seq<u8>)
    requires Sound(j) && n <= Rows(j)
    ensures |s| == n * j.w
  {
    if n == 0 then [] else Crop(j, n - 1) + Row(j, n - 1)
  }

  /** Where byte `i` of row `r` goes: behind `r` rows of `w` bytes. */
  function Address(r: nat, i: nat, w: nat): nat { if r == 0 then i else w + Address(r - 1, i, w) }

  lemma {:induction false} AddressIs(r: nat, i: nat, w: nat)
    ensures Address(r, i, w) == r * w + i
  {
    if r > 0 {
      AddressIs(r - 1, i, w);
      assert r * w == (r - 1) * w + w;
    }
  }

  lemma {:induction false} CropAt(j: Job, n: nat, r: nat, i: nat)
    requires Sound(j) && r < n <= Rows(j) && i < j.w
    ensures Address(r, i, j.w) < |Crop(j, n)| && Crop(j, n)[Address(r, i, j.w)] == Row(j, r)[i]
  {
    if r < n - 1 { CropAt(j, n - 1, r, i); } else { AddressIs(r, i, j.w); }
  }

  /** The job of an accepted picture. */
  function JobOf(g: Geometry, src: seq<u8>): Job { Job(src, g.stride, g.width, Luma(g), Chroma(g)) }

  /** A pixel of the coded frame, and a byte of its chroma plane. */
  function CodedLuma(g: Geometry, src: seq<u8>, row: nat, col: nat): u8 {
    var p := row * g.stride + col; if p < |src| then src[p] else 0
  }
  function CodedChroma(g: Geometry, src: seq<u8>, row: nat, col: nat): u8 {
    var p := g.stride * g.codedHeight + row * g.stride + col; if p < |src| then src[p] else 0
  }

  lemma Shifted(a: nat, r: nat, stride: nat)
    ensures (a + r) * stride == a * stride + r * stride
  {
  }

  lemma LumaRow(g: Geometry, src: seq<u8>, r: nat, i: nat)
    requires Accepted(g) && |src| == g.mapped && i < g.width && r < g.height && Sound(JobOf(g, src))
    ensures Row(JobOf(g, src), r)[i] == CodedLuma(g, src, g.top + r, g.left + i)
  {
    RowFits(JobOf(g, src), r);
    Shifted(g.top, r, g.stride);
  }

  lemma ChromaRow(g: Geometry, src: seq<u8>, r: nat, i: nat)
    requires Accepted(g) && |src| == g.mapped && i < g.width && r < g.height / 2 && Sound(JobOf(g, src))
    ensures Row(JobOf(g, src), g.height + r)[i] == CodedChroma(g, src, g.top / 2 + r, g.left + i)
  {
    RowFits(JobOf(g, src), g.height + r);
    Shifted(g.top / 2, r, g.stride);
  }

  /** Byte `i` of row `r` of the copy is `b`. */
  predicate Shows(g: Geometry, src: seq<u8>, r: nat, i: nat, b: u8)
    requires Sound(JobOf(g, src))
  {
    var out := Crop(JobOf(g, src), g.height + g.height / 2);
    Address(r, i, g.width) < |out| && out[Address(r, i, g.width)] == b
  }

  /** The copy of an accepted picture is the visible rectangle of the coded frame: its
      luma row by row, then its chroma at half height. */
  lemma CropIsVisible(g: Geometry, src: seq<u8>, r: nat, i: nat)
    requires Accepted(g) && |src| == g.mapped && i < g.width
    ensures Sound(JobOf(g, src))
    ensures r < g.height ==> Shows(g, src, r, i, CodedLuma(g, src, g.top + r, g.left + i))
    ensures r < g.height / 2 ==> Shows(g, src, g.height + r, i, CodedChroma(g, src, g.top / 2 + r, g.left + i))
  {
    AcceptedIsInside(g);
    var j := JobOf(g, src);
    if r < g.height {
      LumaRow(g, src, r, i);
      CropAt(j, g.height + g.height / 2, r, i);
    }
    if r < g.height / 2 {
      ChromaRow(g, src, r, i);
      CropAt(j, g.height + g.height / 2, g.height + r, i);
    }
  }

  // ---- the chunks -------------------------------------------------------

  /** The rows of one thread. */
  datatype Chunk = Chunk(first: nat, n: nat)

  function CeilDiv(a: nat, b: nat): nat
    requires b > 0
  {
    if a % b == 0 then a / b else a / b + 1
  }

  function PerThread(rows: nat, threads: nat): nat { CeilDiv(rows, if threads == 0 then 1 else threads) }

  function ChunksFrom(first: nat, rows: nat, per: nat): seq<Chunk>
    requires per > 0
    decreases rows - first
  {
    if first >= rows then []
    else [Chunk(first, Min(per, rows - first))] + ChunksFrom(first + Min(per, rows - first), rows, per)
  }

  lemma CeilDivCovers(a: nat, b: nat)
    requires b > 0
    ensures a <= CeilDiv(a, b) * b && (a > 0 ==> CeilDiv(a, b) > 0)
  {
    var q := a / b;
    assert a == q * b + a % b;
    assert (q + 1) * b == q * b + b;
  }

  lemma FewerLeft(first: nat, rows: nat, per: nat, k: nat)
    requires per > 0 && first < rows && rows - first <= per * k
    ensures k > 0 && rows - (first + Min(per, rows - first)) <= per * (k - 1)
  {
    assert per * k == per * (k - 1) + per;
    if k > 1 { assert per * (k - 1) >= 0; }
  }

  /** Chunk by chunk the rows are covered in order, none empty, and there are no more
      chunks than fit. */
  lemma {:induction false} ChunksPartition(first: nat, rows: nat, per: nat, k: nat)
    requires per > 0 && first <= rows && rows - first <= per * k
    ensures var cs := ChunksFrom(first, rows, per);
      && |cs| <= k
      && (forall i :: 0 <= i < |cs| ==> 0 < cs[i].n <= per && cs[i].first + cs[i].n <= rows)
      && (cs != [] ==> cs[0].first == first && cs[|cs| - 1].first + cs[|cs| - 1].n == rows)
      && (forall i :: 0 < i < |cs| ==> cs[i].first == cs[i - 1].first + cs[i - 1].n)
      && (cs == [] <==> first == rows)
    decreases rows - first
  {
    if first < rows {
      var n := Min(per, rows - first);
      FewerLeft(first, rows, per, k);
      ChunksPartition(first + n, rows, per, k - 1);
    }
  }

  // ---- the copy ---------------------------------------------------------

  /** Prefix `n` rows of the destination are done. */
  predicate Done(j: Job, dst: seq<u8>, n: nat)
    requires Sound(j) && n <= Rows(j) && |dst| == Rows(j) * j.w
  {
    0 <= n * j.w <= |dst| && dst[..n * j.w] == Crop(j, n)
  }

  method CopyPlanes(dst: array<u8>, j: Job, threads: nat)
    requires dst.Length == Rows(j) * j.w && Sound(j)
    modifies dst
    ensures dst[..] == Crop(j, Rows(j))
  {
    var rows := Rows(j);
    var per := PerThread(rows, threads);
    CeilDivCovers(rows, if threads == 0 then 1 else threads);
    var first := 0;
    while first < rows
      invariant first <= rows && Done(j, dst[..], first)
    {
      var n := if per < rows - first then per else rows - first;
      CopyChunk(dst, j, first, n);
      first := first + n;
    }
    assert dst[..][..rows * j.w] == dst[..];
  }

  /** What one thread runs. */
  method CopyChunk(dst: array<u8>, j: Job, start: nat, n: nat)
    requires dst.Length == Rows(j) * j.w && Sound(j) && start + n <= Rows(j) && Done(j, dst[..], start)
    modifies dst
    ensures Done(j, dst[..], start + n)
  {
    for i := 0 to n
      invariant Done(j, dst[..], start + i)
    {
      var at := (start + i) * j.w;
      NextRow(start + i, Rows(j), j.w);
      RowFits(j, start + i);
      CopyRow(dst, at, j.src, RowSrc(j, start + i), j.w);
      RowDone(j, dst[..], start + i, at);
    }
  }

  /** `copy_nonoverlapping`. */
  method CopyRow(dst: array<u8>, at: nat, src: seq<u8>, from: nat, w: nat)
    requires at + w <= dst.Length && from + w <= |src|
    modifies dst
    ensures dst[..at] == old(dst[..at]) && dst[at + w..] == old(dst[at + w..])
    ensures dst[at..at + w] == src[from..from + w]
  {
    for i := 0 to w
      invariant dst[..at] == old(dst[..at]) && dst[at + w..] == old(dst[at + w..])
      invariant dst[at..at + i] == src[from..from + i]
    {
      dst[at + i] := src[from + i];
    }
  }

  lemma NextRow(n: nat, rows: nat, w: nat)
    requires n < rows
    ensures (n + 1) * w == n * w + w <= rows * w
  {
    Times(n, rows, w);
  }

  lemma Extended(s: seq<u8>, at: nat, w: nat)
    requires at + w <= |s|
    ensures s[..at + w] == s[..at] + s[at..at + w]
  {
  }

  lemma RowDone(j: Job, dst: seq<u8>, n: nat, at: nat)
    requires Sound(j) && n < Rows(j) && |dst| == Rows(j) * j.w && at == n * j.w
    requires at + j.w <= |dst| && dst[..at] == Crop(j, n) && dst[at..at + j.w] == Row(j, n)
    ensures Done(j, dst, n + 1)
  {
    NextRow(n, Rows(j), j.w);
    Extended(dst, at, j.w);
  }

  // ---- threads in any order ---------------------------------------------

  /** One byte written by one thread. */
  datatype Write = Write(row: nat, col: nat)

  function RowWrites(r: nat, w: nat): (s: seq<Write>)
    ensures |s| == w
  {
    if w == 0 then [] else RowWrites(r, w - 1) + [Write(r, w - 1)]
  }

  /** What the thread with these rows writes, in its order. */
  function ThreadWrites(first: nat, n: nat, w: nat): seq<Write> {
    if n == 0 then [] else ThreadWrites(first, n - 1, w) + RowWrites(first + n - 1, w)
  }

  function AllWrites(cs: seq<Chunk>, w: nat): seq<seq<Write>> {
    seq(|cs|, i requires 0 <= i < |cs| => ThreadWrites(cs[i].first, cs[i].n, w))
  }

  lemma {:induction false} ThreadsJoin(first: nat, a: nat, b: nat, w: nat)
    ensures ThreadWrites(first, a + b, w) == ThreadWrites(first, a, w) + ThreadWrites(first + a, b, w)
  {
    if b == 0 {
      assert ThreadWrites(first, a, w) + [] == ThreadWrites(first, a, w);
    } else {
      ThreadsJoin(first, a, b - 1, w);
      Reassociate(ThreadWrites(first, a, w), ThreadWrites(first + a, b - 1, w), RowWrites(first + a + b - 1, w));
    }
  }

  /** All threads together write what one thread with all the rows would. */
  lemma {:induction false} ThreadsWriteAll(first: nat, rows: nat, per: nat, w: nat)
    requires per > 0 && first <= rows
    ensures Concat(AllWrites(ChunksFrom(first, rows, per), w)) == ThreadWrites(first, rows - first, w)
    decreases rows - first
  {
    if first < rows {
      var n := Min(per, rows - first);
      var cs := ChunksFrom(first, rows, per);
      ThreadsWriteAll(first + n, rows, per, w);
      ThreadsJoin(first, n, rows - first - n, w);
      assert AllWrites(cs, w)[0] == ThreadWrites(first, n, w);
      assert AllWrites(cs, w)[1..] == AllWrites(cs[1..], w);
    }
  }

  function Count(s: seq<Write>, x: Write): nat {
    if s == [] then 0 else Count(s[..|s| - 1], x) + if s[|s| - 1] == x then 1 else 0
  }

  lemma {:induction false} CountAppend(a: seq<Write>, b: seq<Write>, x: Write)
    ensures Count(a + b, x) == Count(a, x) + Count(b, x)
  {
    if b == [] {
      assert a + b == a;
    } else {
      CountAppend(a, b[..|b| - 1], x);
      assert (a + b)[..|a + b| - 1] == a + b[..|b| - 1];
    }
  }

  lemma {:induction false} CountIs(s: seq<Write>, x: Write)
    ensures multiset(s)[x] == Count(s, x)
  {
    if s != [] {
      CountIs(s[..|s| - 1], x);
      assert s == s[..|s| - 1] + [s[|s| - 1]];
    }
  }

  lemma {:induction false} RowCounts(r: nat, w: nat, x: Write)
    ensures Count(RowWrites(r, w), x) == if x.row == r && x.col < w then 1 else 0
  {
    if w > 0 {
      RowCounts(r, w - 1, x);
      assert RowWrites(r, w)[..w - 1] == RowWrites(r, w - 1);
    }
  }

  predicate InRows(x: Write, first: nat, n: nat, w: nat) { first <= x.row < first + n && x.col < w }

  /** Every byte of the destination is written once. */
  lemma {:induction false} WrittenOnce(first: nat, n: nat, w: nat, x: Write)
    ensures Count(ThreadWrites(first, n, w), x) == if InRows(x, first, n, w) then 1 else 0
  {
    if n > 0 {
      WrittenOnce(first, n - 1, w, x);
      RowCounts(first + n - 1, w, x);
      CountAppend(ThreadWrites(first, n - 1, w), RowWrites(first + n - 1, w), x);
    }
  }

  /** The writes of the threads, interleaved in some order. */
  predicate Interleaves(order: seq<Write>, cs: seq<Chunk>, w: nat) {
    multiset(order) == multiset(Concat(AllWrites(cs, w)))
  }

  lemma AddressFits(r: nat, i: nat, rows: nat, w: nat)
    requires r < rows && i < w
    ensures Address(r, i, w) < rows * w
  {
    AddressIs(r, i, w);
    Times(r, rows, w);
  }

  /** Writes inside the picture. */
  predicate InPicture(j: Job, order: seq<Write>) {
    forall i :: 0 <= i < |order| ==> order[i].row < Rows(j) && order[i].col < j.w
  }

  /** The destination after some writes. */
  function Written(j: Job, dst: seq<u8>, order: seq<Write>): (s: seq<u8>)
    requires Sound(j) && |dst| == Rows(j) * j.w && InPicture(j, order)
    ensures |s| == |dst|
  {
    if order == [] then dst
    else
      var x := order[|order| - 1];
      AddressFits(x.row, x.col, Rows(j), j.w);
      Written(j, dst, order[..|order| - 1])[Address(x.row, x.col, j.w) := Row(j, x.row)[x.col]]
  }

  lemma DistinctAddresses(w: nat, x: Write, y: Write)
    requires x.col < w && y.col < w && Address(x.row, x.col, w) == Address(y.row, y.col, w)
    ensures x == y
  {
    AddressIs(x.row, x.col, w);
    AddressIs(y.row, y.col, w);
    if x.row < y.row { Times(x.row, y.row, w); }
    if y.row < x.row { Times(y.row, x.row, w); }
  }

  /** A byte written is there at the end, whatever is written after it. */
  lemma {:induction false} WrittenStays(j: Job, dst: seq<u8>, order: seq<Write>, x: Write)
    requires Sound(j) && |dst| == Rows(j) * j.w && InPicture(j, order)
    requires x in order
    ensures x.row < Rows(j) && x.col < j.w && Address(x.row, x.col, j.w) < |dst|
    ensures Written(j, dst, order)[Address(x.row, x.col, j.w)] == Row(j, x.row)[x.col]
  {
    var front, last := order[..|order| - 1], order[|order| - 1];
    AddressFits(x.row, x.col, Rows(j), j.w);
    AddressFits(last.row, last.col, Rows(j), j.w);
    if x != last {
      assert order == front + [last];
      WrittenStays(j, dst, front, x);
      if Address(x.row, x.col, j.w) == Address(last.row, last.col, j.w) { DistinctAddresses(j.w, x, last); }
    }
  }

  lemma {:induction false} AddressOf(p: nat, rows: nat, w: nat) returns (x: Write)
    requires p < rows * w
    ensures x.row < rows && x.col < w && p == Address(x.row, x.col, w)
  {
    if p < w {
      x := Write(0, p);
    } else {
      assert (rows - 1) * w == rows * w - w;
      var above := AddressOf(p - w, rows - 1, w);
      x := Write(above.row + 1, above.col);
    }
  }

  /** However the threads interleave, byte by byte, every byte is written once and the
      copy is the plain row-by-row one: for every number of threads. */
  lemma AnyInterleavingCopies(j: Job, dst: seq<u8>, threads: nat, order: seq<Write>)
    requires Sound(j) && |dst| == Rows(j) * j.w && Rows(j) > 0
    requires PerThread(Rows(j), threads) > 0
    requires Interleaves(order, ChunksFrom(0, Rows(j), PerThread(Rows(j), threads)), j.w)
    ensures InPicture(j, order)
    ensures forall x: Write :: x.row < Rows(j) && x.col < j.w ==> multiset(order)[x] == 1
    ensures Written(j, dst, order) == Crop(j, Rows(j))
  {
    OnceEach(Rows(j), PerThread(Rows(j), threads), j.w, order);
    forall i | 0 <= i < |order| ensures order[i].row < Rows(j) && order[i].col < j.w {
      assert order[i] in multiset(order);
    }
    CopiedEverywhere(j, dst, order);
  }

  lemma OnceEach(rows: nat, per: nat, w: nat, order: seq<Write>)
    requires per > 0 && Interleaves(order, ChunksFrom(0, rows, per), w)
    ensures forall x: Write :: multiset(order)[x] == if x.row < rows && x.col < w then 1 else 0
  {
    ThreadsWriteAll(0, rows, per, w);
    forall x: Write ensures multiset(order)[x] == if x.row < rows && x.col < w then 1 else 0 {
      WrittenOnce(0, rows, w, x);
      CountIs(ThreadWrites(0, rows, w), x);
    }
  }

  lemma CopiedEverywhere(j: Job, dst: seq<u8>, order: seq<Write>)
    requires Sound(j) && |dst| == Rows(j) * j.w && InPicture(j, order)
    requires forall x: Write :: x.row < Rows(j) && x.col < j.w ==> multiset(order)[x] == 1
    ensures Written(j, dst, order) == Crop(j, Rows(j))
  {
    forall p | 0 <= p < |dst| ensures Written(j, dst, order)[p] == Crop(j, Rows(j))[p] { CopiedAt(j, dst, order, p); }
  }

  lemma CopiedAt(j: Job, dst: seq<u8>, order: seq<Write>, p: nat)
    requires Sound(j) && |dst| == Rows(j) * j.w && InPicture(j, order) && p < |dst|
    requires forall x: Write :: x.row < Rows(j) && x.col < j.w ==> multiset(order)[x] == 1
    ensures Written(j, dst, order)[p] == Crop(j, Rows(j))[p]
  {
    var x := AddressOf(p, Rows(j), j.w);
    assert x in multiset(order);
    WrittenStays(j, dst, order, x);
    CropAt(j, Rows(j), x.row, x.col);
  }
}
