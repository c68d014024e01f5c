/** Vocabulary shared by every module: machine-width integers, the usual
    wrappers, byte order, and cutting a sequence into chunks. */
module Common {

  type u8 = x: int | 0 <= x < 0x100
  type u16 = x: int | 0 <= x < 0x1_0000
  type u32 = x: int | 0 <= x < 0x1_0000_0000
  type u64 = x: int | 0 <= x < 0x1_0000_0000_0000_0000

  datatype Option<+T> = None | Some(value: T)
  datatype Result<+T, +E> = Ok(value: T) | Err(error: E)

  /** Playout mode negotiated by the two castr ends. */
  datatype Mode = Game | Quality

  function Min(a: int, b: int): int { if a <= b then a else b }
  function Max(a: int, b: int): int { if a >= b then a else b }

  /** Rust's `saturating_sub` on an unsigned type. */
  function SatSub(a: nat, b: nat): nat { if a >= b then a - b else 0 }

  /** `a - b` and `a + 1` under 32-bit and under 16-bit wrap. */
  function Sub32(a: u32, b: u32): u32 { (a - b) % 0x1_0000_0000 }
  function Sub16(a: u16, b: u16): u16 { (a - b) % 0x1_0000 }
  function Next32(a: u32): u32 { (a + 1) % 0x1_0000_0000 }
  function Next16(a: u16): u16 { (a + 1) % 0x1_0000 }

  lemma {:induction false} Times(x: int, y: int, b: nat)
    requires x < y
    ensures x * b + b <= y * b
    decreases y - x
  {
    assert (y - 1) * b == y * b - b;
    if x < y - 1 { Times(x, y - 1, b); }
  }

  // ---- byte order -------------------------------------------------------

  function Pow256(k: nat): nat { if k == 0 then 1 else 256 * Pow256(k - 1) }

  lemma Pow256Values()
    ensures Pow256(1) == 0x100 && Pow256(2) == 0x1_0000
    ensures Pow256(4) == 0x1_0000_0000 && Pow256(8) == 0x1_0000_0000_0000_0000
  {
    assert Pow256(3) == 256 * Pow256(2);
    assert Pow256(5) == 256 * Pow256(4);
    assert Pow256(7) == 256 * Pow256(6);
  }

  /** The low `k` bytes of `n`, least significant first (`to_le_bytes`). */
  function Le(n: nat, k: nat): (r: seq<u8>)
    ensures |r| == k
  {
    if k == 0 then [] else [n % 256] + Le(n / 256, k - 1)
  }

  function FromLe(s: seq<u8>): nat {
    if s == [] then 0 else s[0] + 256 * FromLe(s[1..])
  }

  /** The low `k` bytes of `n`, most significant first (`to_be_bytes`). */
  function Be(n: nat, k: nat): (r: seq<u8>)
    ensures |r| == k
  {
    if k == 0 then [] else Be(n / 256, k - 1) + [n % 256]
  }

  function FromBe(s: seq<u8>): nat {
    if s == [] then 0 else 256 * FromBe(s[..|s| - 1]) + s[|s| - 1]
  }

  lemma {:induction false} LeRoundTrip(n: nat, k: nat)
    requires n < Pow256(k)
    ensures FromLe(Le(n, k)) == n
  {
    if k != 0 {
      LeRoundTrip(n / 256, k - 1);
      assert Le(n, k)[1..] == Le(n / 256, k - 1);
    }
  }

  lemma {:induction false} BeRoundTrip(n: nat, k: nat)
    requires n < Pow256(k)
    ensures FromBe(Be(n, k)) == n
  {
    if k != 0 {
      BeRoundTrip(n / 256, k - 1);
      assert Be(n, k)[..k - 1] == Be(n / 256, k - 1);
    }
  }

  lemma {:induction false} FromLeBound(s: seq<u8>)
    ensures FromLe(s) < Pow256(|s|)
  {
    if s != [] { FromLeBound(s[1..]); }
  }

  lemma {:induction false} FromBeBound(s: seq<u8>)
    ensures FromBe(s) < Pow256(|s|)
  {
    if s != [] { FromBeBound(s[..|s| - 1]); }
  }

  /** Reading bytes and writing the value back gives the same bytes. */
  lemma {:induction false} LeOfFromLe(s: seq<u8>)
    ensures Le(FromLe(s), |s|) == s
  {
    if s != [] {
      LeOfFromLe(s[1..]);
      assert FromLe(s) % 256 == s[0] && FromLe(s) / 256 == FromLe(s[1..]);
    }
  }

  lemma {:induction false} BeOfFromBe(s: seq<u8>)
    ensures Be(FromBe(s), |s|) == s
  {
    if s != [] {
      var front, last := s[..|s| - 1], s[|s| - 1];
      BeOfFromBe(front);
      assert FromBe(s) % 256 == last && FromBe(s) / 256 == FromBe(front);
    }
  }

  // ---- concatenation and chunks -----------------------------------------

  function Concat<T>(ss: seq<seq<T>>): seq<T> {
    if ss == [] then [] else ss[0] + Concat(ss[1..])
  }

  lemma {:induction false} ConcatAppend<T>(a: seq<seq<T>>, b: seq<seq<T>>)
    ensures Concat(a + b) == Concat(a) + Concat(b)
  {
    if a == [] {
      assert a + b == b;
    } else {
      ConcatAppend(a[1..], b);
      assert (a + b)[0] == a[0] && (a + b)[1..] == a[1..] + b;
      Reassociate(a[0], Concat(a[1..]), Concat(b));
    }
  }

  lemma Reassociate<T>(a: seq<T>, b: seq<T>, c: seq<T>)
    ensures (a + b) + c == a + (b + c)
  {
  }

  lemma ConcatSnoc<T>(a: seq<seq<T>>, x: seq<T>)
    ensures Concat(a + [x]) == Concat(a) + x
  {
    ConcatAppend(a, [x]);
    assert Concat([x]) == x + Concat([x][1..]) == x;
  }

  /** Rust's `chunks(n)`: pieces of `n`, the last one possibly shorter. */
  function Chunks<T>(s: seq<T>, n: nat): seq<seq<T>>
    requires n > 0
    decreases |s|
  {
    if s == [] then [] else if |s| <= n then [s] else [s[..n]] + Chunks(s[n..], n)
  }

  lemma {:induction false} ChunksConcat<T>(s: seq<T>, n: nat)
    requires n > 0
    ensures Concat(Chunks(s, n)) == s
    decreases |s|
  {
    if s == [] {
    } else if |s| <= n {
      assert Concat([s]) == s + Concat([s][1..]) == s;
    } else {
      ChunksConcat(s[n..], n);
      assert Chunks(s, n)[1..] == Chunks(s[n..], n);
      assert s == s[..n] + s[n..];
    }
  }

  /** Every chunk is non-empty and at most `n` long; there is one exactly when
      there is something to cut. */
  lemma {:induction false} ChunksShape<T>(s: seq<T>, n: nat)
    requires n > 0
    ensures (Chunks(s, n) == []) <==> (s == [])
    ensures forall i :: 0 <= i < |Chunks(s, n)| ==> 0 < |Chunks(s, n)[i]| <= n
    decreases |s|
  {
    if s != [] && |s| > n {
      ChunksShape(s[n..], n);
      assert Chunks(s, n) == [s[..n]] + Chunks(s[n..], n);
    }
  }

  /** A machine run over its inputs: the last state and all it gave out. */
  function Fold<S, A, E>(f: (S, A) -> (S, seq<E>), s: S, inputs: seq<A>): (S, seq<E>) {
    if inputs == [] then (s, [])
    else
      var (s1, e1) := f(s, inputs[0]);
      var (s2, e2) := Fold(f, s1, inputs[1..]);
      (s2, e1 + e2)
  }

  lemma {:induction false} FoldAppend<S, A, E>(f: (S, A) -> (S, seq<E>), s: S, a: seq<A>, b: seq<A>)
    ensures var (s1, e1) := Fold(f, s, a); var (s2, e2) := Fold(f, s1, b); Fold(f, s, a + b) == (s2, e1 + e2)
    decreases |a|
  {
    if a == [] {
      assert a + b == b;
      assert [] + Fold(f, s, b).1 == Fold(f, s, b).1;
    } else {
      var (h, e) := f(s, a[0]);
      FoldAppend(f, h, a[1..], b);
      assert (a + b)[0] == a[0] && (a + b)[1..] == a[1..] + b;
      var (s1, e1) := Fold(f, h, a[1..]);
      Reassociate(e, e1, Fold(f, s1, b).1);
    }
  }

  lemma FoldOne<S, A, E>(f: (S, A) -> (S, seq<E>), s: S, x: A)
    ensures Fold(f, s, [x]) == f(s, x)
  {
    assert [x][1..] == [];
    var (s1, e1) := f(s, x);
    assert e1 + [] == e1;
  }

  lemma FoldSnoc<S, A, E>(f: (S, A) -> (S, seq<E>), s: S, a: seq<A>, x: A)
    ensures var (s1, e1) := Fold(f, s, a); var (s2, e2) := f(s1, x); Fold(f, s, a + [x]) == (s2, e1 + e2)
  {
    FoldAppend(f, s, a, [x]);
    FoldOne(f, Fold(f, s, a).0, x);
  }

  /** `xs` with `x` put in at position `p`. */
  function Splice<T>(xs: seq<T>, p: nat, x: T): seq<T>
    requires p <= |xs|
  {
    xs[..p] + [x] + xs[p..]
  }

  lemma SpliceAt<T>(xs: seq<T>, p: nat, x: T)
    requires p <= |xs|
    ensures |Splice(xs, p, x)| == |xs| + 1
    ensures forall i :: 0 <= i < p ==> Splice(xs, p, x)[i] == xs[i]
    ensures Splice(xs, p, x)[p] == x
    ensures forall i :: p < i <= |xs| ==> Splice(xs, p, x)[i] == xs[i - 1]
  {
  }
}
