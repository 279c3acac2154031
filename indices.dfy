/** The triangle index generator `createIndices(len)`: for a flattened
    position length `len` it emits, one triangle per loop iteration, the
    vertex indices that draw every 4-vertex quad as two triangles, and
    returns them as a `Uint16Array`. */
module Indices {
  import opened TypedArrays

  // ---------------------------------------------------------------------
  // Iteration count
  // ---------------------------------------------------------------------

  /** The loop guard `i < len / 6`, with the real division of JavaScript. */
  predicate InLoop(i: nat, len: int)
    ensures InLoop(i, len) <==> 6 * i < len
  {
    (i as real) < (len as real) / 6.0
  }

  /** The number of iterations the loop runs: exactly the naturals `i`
      below it pass the guard, so it is `ceil(len / 6)` for a positive
      `len` and 0 otherwise. */
  function TriangleCount(len: int): (t: nat)
    ensures forall i: nat :: InLoop(i, len) <==> i < t
    ensures len <= 0 ==> t == 0
    ensures 0 < len ==> 6 * (t - 1) < len <= 6 * t
  {
    if len <= 0 then 0 else (len + 5) / 6
  }

  lemma {:induction false} TriangleCountMonotone(len: int, len': int)
    requires len <= len'
    ensures TriangleCount(len) <= TriangleCount(len')
  {
    var t, t' := TriangleCount(len), TriangleCount(len');
    if t > 0 {
      assert InLoop(t - 1, len);
      assert InLoop(t - 1, len');
    }
  }

  // ---------------------------------------------------------------------
  // What the loop pushes
  // ---------------------------------------------------------------------

  /** The triple pushed by iteration `i`: an even iteration draws the first
      triangle of quad `i / 2`, an odd one the second triangle of quad
      `(i - 1) / 2`. */
  function TriangleAt(i: nat): (tri: seq<int>)
    ensures |tri| == 3
  {
    if i % 2 == 0 then
      var c := (i / 2) * 4;
      [c, c + 1, c + 2]
    else
      var c := ((i - 1) / 2) * 4;
      [c, c + 2, c + 3]
  }

  /** The contents of `result` after the first `t` iterations. */
  function Pushed(t: nat): (r: seq<int>)
    ensures |r| == 3 * t
  {
    if t == 0 then [] else Pushed(t - 1) + TriangleAt(t - 1)
  }

  /** The indices `createIndices(len)` returns. */
  function Indices(len: int): (r: seq<u16>)
    ensures |r| == 3 * TriangleCount(len)
  {
    FromNumbers(Pushed(TriangleCount(len)))
  }

  // ---------------------------------------------------------------------
  // Reference definitions: quad by quad and position by position
  // ---------------------------------------------------------------------

  /** The six indices of quad `k`: its vertices `4k .. 4k+3`, as the
      triangles `(4k, 4k+1, 4k+2)` and `(4k, 4k+2, 4k+3)`. */
  function Quad(k: nat): seq<int>
  {
    [4 * k, 4 * k + 1, 4 * k + 2, 4 * k, 4 * k + 2, 4 * k + 3]
  }

  /** The first `q` quads one after another. */
  function Quads(q: nat): seq<int>
  {
    if q == 0 then [] else Quads(q - 1) + Quad(q - 1)
  }

  /** The vertex offset within a quad that position `o` of its six picks. */
  function QuadCorner(o: nat): int
    requires o < 6
  {
    if o < 3 then o else if o == 3 then 0 else o - 2
  }

  /** The index that position `j` of the output holds, in closed form. */
  function IndexAt(j: nat): int
  {
    4 * (j / 6) + QuadCorner(j % 6)
  }

  // ---------------------------------------------------------------------
  // The generator
  // ---------------------------------------------------------------------

  /** `createIndices(len)`: every integer `len` is accepted. */
  method CreateIndices(len: int) returns (indices: seq<u16>)
    ensures indices == Indices(len)
    ensures |indices| == 3 * TriangleCount(len)
    ensures forall j :: 0 <= j < |indices| ==> indices[j] == ToUint16(IndexAt(j))
  {
    var result: seq<int> := [];
    var i: nat := 0;
    while InLoop(i, len)
      invariant i <= TriangleCount(len)
      invariant result == Pushed(i)
      decreases TriangleCount(len) - i
    {
      if i % 2 == 0 {
        var c := (i / 2) * 4;
        result := result + [c, c + 1, c + 2];
      } else {
        var c := ((i - 1) / 2) * 4;
        result := result + [c, c + 2, c + 3];
      }
      i := i + 1;
    }
    indices := FromNumbers(result);
    forall j | 0 <= j < |indices| ensures indices[j] == ToUint16(IndexAt(j)) {
      PushedAt(i, j);
    }
  }

  // ---------------------------------------------------------------------
  // Properties
  // ---------------------------------------------------------------------

  /** Iteration `i` occupies positions `3i .. 3i+2` of the output. */
  lemma {:induction false} PushedTriangle(t: nat, i: nat)
    requires i < t
    ensures Pushed(t)[3 * i .. 3 * i + 3] == TriangleAt(i)
  {
    if i < t - 1 {
      PushedTriangle(t - 1, i);
      assert Pushed(t)[..3 * (t - 1)] == Pushed(t - 1);
    } else {
      assert Pushed(t)[3 * i ..] == TriangleAt(i);
    }
  }

  /** An even iteration `i` emits `(c, c+1, c+2)` with `c = 4 * (i / 2)`. */
  lemma EvenTriangle(len: int, i: nat)
    requires i < TriangleCount(len) && i % 2 == 0
    ensures var c := 4 * (i / 2);
      Pushed(TriangleCount(len))[3 * i .. 3 * i + 3] == [c, c + 1, c + 2]
  {
    PushedTriangle(TriangleCount(len), i);
  }

  /** An odd iteration `i` emits `(c, c+2, c+3)` with `c = 4 * ((i - 1) / 2)`. */
  lemma OddTriangle(len: int, i: nat)
    requires i < TriangleCount(len) && i % 2 == 1
    ensures var c := 4 * ((i - 1) / 2);
      Pushed(TriangleCount(len))[3 * i .. 3 * i + 3] == [c, c + 2, c + 3]
  {
    PushedTriangle(TriangleCount(len), i);
  }

  /** Every position of the pushed list agrees with the closed form. */
  lemma {:induction false} PushedAt(t: nat, j: nat)
    requires j < 3 * t
    ensures Pushed(t)[j] == IndexAt(j)
  {
    var i := j / 3;
    var m := j % 3;
    PushedTriangle(t, i);
    assert Pushed(t)[j] == TriangleAt(i)[m];
    var k := i / 2;
    if i % 2 == 0 {
      assert j == 6 * k + m;
      assert j / 6 == k && j % 6 == m;
    } else {
      assert j == 6 * k + 3 + m;
      assert j / 6 == k && j % 6 == 3 + m;
    }
  }

  /** Iterations `2k` and `2k+1` together push quad `k`. */
  lemma TwoIterations(k: nat)
    ensures Pushed(2 * k + 2) == Pushed(2 * k) + Quad(k)
  {
    var i := 2 * k;
    assert i % 2 == 0 && i / 2 == k;
    assert (i + 1) % 2 == 1 && (i + 1 - 1) / 2 == k;
    assert TriangleAt(i) == [4 * k, 4 * k + 1, 4 * k + 2];
    assert TriangleAt(i + 1) == [4 * k, 4 * k + 2, 4 * k + 3];
    assert Pushed(i + 2) == Pushed(i) + TriangleAt(i) + TriangleAt(i + 1);
  }

  /** Iterations `2k` and `2k+1` share base `4k`: the first `2q` iterations
      emit the first `q` quads. */
  lemma {:induction false} PushedQuads(q: nat)
    ensures Pushed(2 * q) == Quads(q)
  {
    if q > 0 {
      var k := q - 1;
      PushedQuads(k);
      TwoIterations(k);
      assert 2 * k + 2 == 2 * q;
      assert Quads(q) == Quads(k) + Quad(k);
    }
  }

  /** For a length of whole quads of 3-D vertices the output is those quads. */
  lemma WholeQuads(len: int)
    requires 0 <= len && len % 12 == 0
    ensures Indices(len) == FromNumbers(Quads(len / 12))
  {
    assert TriangleCount(len) == 2 * (len / 12);
    PushedQuads(len / 12);
  }

  /** Every index from iteration `i` is at most `4 * (i / 2) + 3`. */
  lemma TriangleBound(t: nat, i: nat)
    requires i < t
    ensures forall j :: 3 * i <= j < 3 * i + 3 ==> 0 <= Pushed(t)[j] <= 4 * (i / 2) + 3
  {
    PushedTriangle(t, i);
    assert forall j :: 3 * i <= j < 3 * i + 3 ==> Pushed(t)[j] == TriangleAt(i)[j - 3 * i];
  }

  /** The first `t` iterations reference only the vertices of the quads they
      touch, `0 .. 4 * ceil(t / 2) - 1`. */
  lemma PushedBound(t: nat, j: nat)
    requires j < 3 * t
    ensures 0 <= Pushed(t)[j] < 4 * ((t + 1) / 2)
  {
    PushedAt(t, j);
    assert j / 6 < (t + 1) / 2;
  }

  /** For `len` a multiple of 12 every index is below the vertex count
      `len / 3`. */
  lemma IndicesBelowVertexCount(len: int)
    requires 0 <= len && len % 12 == 0
    ensures forall x :: x in Indices(len) ==> x < len / 3
  {
    var t := TriangleCount(len);
    assert t == 2 * (len / 12);
    forall j | 0 <= j < |Indices(len)| ensures Indices(len)[j] < len / 3 {
      PushedBound(t, j);
    }
  }

  /** In a length of whole quads every vertex is used by some triangle. */
  lemma EveryVertexUsed(q: nat, v: nat)
    requires v < 4 * q
    ensures v in Pushed(2 * q)
  {
    var k, o := v / 4, v % 4;
    var j := 6 * k + (if o == 3 then 5 else o);
    PushedAt(2 * q, j);
    assert j / 6 == k && j % 6 == (if o == 3 then 5 else o);
    assert Pushed(2 * q)[j] == v;
  }

  /** Iterations only append: fewer iterations give a prefix. */
  lemma {:induction false} PushedPrefix(s: nat, t: nat)
    requires s <= t
    ensures Pushed(s) <= Pushed(t)
  {
    if s < t {
      PushedPrefix(s, t - 1);
    }
  }

  /** A shorter length yields a prefix of a longer one's output. */
  lemma IndicesPrefix(len: int, len': int)
    requires len <= len'
    ensures Indices(len) <= Indices(len')
  {
    TriangleCountMonotone(len, len');
    PushedPrefix(TriangleCount(len), TriangleCount(len'));
    FromNumbersPrefix(Pushed(TriangleCount(len)), Pushed(TriangleCount(len')));
  }

  /** There is no error path: a non-positive length gives the empty array. */
  lemma EmptyForNonPositive(len: int)
    ensures Indices(len) == [] <==> len <= 0
  {
  }

  /** Up to `len = 196608` (32768 triangles) every index fits in 16 bits, so
      the `Uint16Array` holds exactly the pushed values. */
  lemma Lossless(len: int)
    ensures Indices(len) == Pushed(TriangleCount(len)) <==> len <= 196608
  {
    var t := TriangleCount(len);
    if len <= 196608 {
      forall j | 0 <= j < 3 * t ensures 0 <= Pushed(t)[j] < Modulus {
        PushedBound(t, j);
      }
      FromNumbersLossless(Pushed(t));
    } else {
      FirstWrap(len);
    }
  }

  /** Beyond `len = 196608` the first triangle of quad 16384 starts at
      vertex 65536, which the `Uint16Array` stores as 0. */
  lemma FirstWrap(len: int)
    requires 196608 < len
    ensures Pushed(TriangleCount(len))[3 * 32768] == 65536
    ensures Indices(len)[3 * 32768] == 0
  {
    var t := TriangleCount(len);
    PushedAt(t, 3 * 32768);
  }

  /** One quad of 3-D vertices (12 floats) gives its two triangles. */
  lemma OneQuad()
    ensures Indices(12) == [0, 1, 2, 0, 2, 3]
  {
    assert TriangleCount(12) == 2;
  }

  /** Two quads give `[0, 1, 2, 0, 2, 3, 4, 5, 6, 4, 6, 7]`. */
  lemma TwoQuads()
    ensures Indices(24) == [0, 1, 2, 0, 2, 3, 4, 5, 6, 4, 6, 7]
  {
    assert TriangleCount(24) == 4;
  }

  /** The iteration count rounds up: `len = 7` runs two iterations. */
  lemma RoundsUp()
    ensures Indices(7) == [0, 1, 2, 0, 2, 3]
    ensures Indices(6) == [0, 1, 2]
  {
    assert TriangleCount(7) == 2;
    assert TriangleCount(6) == 1;
  }
}
