# Triangle index generator of practice-webgl, in Dafny

The demos draw meshes made of quads, each quad being four consecutive
vertices. `createIndices(len)` (`src/indices.ts`) builds the index buffer
for such a mesh. The intended argument is the length of a flattened
position array with 3 floats per vertex; none of the modelled files calls
the function, so this use is an assumption, not something the code shows.
Each loop iteration `i` pushes one triangle:

- an even `i` pushes `(c, c+1, c+2)` with `c = 4 * (i / 2)`;
- an odd `i` pushes `(c, c+2, c+3)` with `c = 4 * ((i - 1) / 2)`.

Iterations `2k` and `2k+1` therefore draw quad `k` as
`[4k, 4k+1, 4k+2, 4k, 4k+2, 4k+3]`. The pushed list is finally copied into a
`Uint16Array`.

The project has two modules:

- `TypedArrays` (`typed_arrays.dfy`) models the `Uint16Array` conversion.
  `u16` is the element type, `ToUint16` reduces an integer modulo 2^16, and
  `FromNumbers` converts a whole list.
- `Indices` (`indices.dfy`) holds the generator. `CreateIndices` is a method
  whose `while` loop mirrors the source's `for` loop. It keeps the guard
  `i < len / 6` in real arithmetic (`InLoop`) and grows a `seq<int>` the way
  `result.push` grows the array. The method is proved against three
  specification functions. `TriangleAt(i)` is the triple that iteration `i`
  pushes. `Pushed(t)` is the list after `t` iterations. `Indices(len)` is the
  returned array. There are two independent reference definitions: the
  quad-by-quad concatenation `Quads(q)` and the closed form
  `IndexAt(j) = 4 * (j / 6) + QuadCorner(j % 6)`. Lemmas tie both of them to
  the loop's output.

Design choices:

- `len` is an unbounded `int`, and the model has no precondition and no
  error result. The validation at `src/indices.ts:3-8` is commented out in
  the source, so the function itself rejects no length, and a non-positive
  `len` simply gives the empty array. The JavaScript array length limit is
  not modelled (see "Left out").
- The 16-bit wrap is modelled explicitly, without a precondition that rules
  it out. `Lossless` proves that the returned array equals the pushed
  values exactly when `len <= 196608`, which is 32768 triangles.
  `FirstWrap` shows that any longer input pushes the index 65536 at
  position 98304, and the array stores it as 0.
- The guard `i < len / 6` uses real division, so a positive `len` gives
  `ceil(len / 6)` iterations, each emitting one triangle, not one quad.
  `TriangleCount` states this, and `RoundsUp` shows that `len = 7` gives two
  triangles. Under the intended use with three floats per vertex, 12 floats
  make one quad, which gives two triangles (`OneQuad`).

## Model

| member | source | states |
|---|---|---|
| `TypedArrays.ToUint16` | src/indices.ts:19 | the stored element is in `[0, 65536)` and congruent to the pushed value modulo 2^16; it equals the value when the value is already in range, and it is never larger for a non-negative value |
| `TypedArrays.FromNumbers` | src/indices.ts:19 | `new Uint16Array(result)` has the same length as `result`, and each element is congruent modulo 2^16 to the value pushed at that position |
| `TypedArrays.FromNumbersLossless` | src/indices.ts:19 | the conversion returns exactly the pushed values if and only if every value lies in `[0, 65536)` |
| `TypedArrays.FromNumbersPrefix` | src/indices.ts:19 | converting a prefix of a list gives a prefix of the converted list |
| `Indices.InLoop` | src/indices.ts:10 | the guard `i < len / 6` in real arithmetic holds exactly when `6 * i < len` |
| `Indices.TriangleCount` | src/indices.ts:10 | the naturals `i` that pass the guard `i < len / 6` (real division) are exactly those below the count; the count is 0 for `len <= 0` and `ceil(len / 6)` otherwise |
| `Indices.TriangleCountMonotone` | src/indices.ts:10 | a larger `len` never runs fewer iterations |
| `Indices.TriangleAt` | src/indices.ts:11-16 | each iteration pushes exactly three indices |
| `Indices.Pushed` | src/indices.ts:2-18 | after `t` iterations `result` holds exactly `3 * t` indices |
| `Indices.Indices` | src/indices.ts:1-20 | the returned array holds 3 indices per loop iteration: 0 for `len <= 0`, `3 * ceil(len / 6)` otherwise |
| `Indices.CreateIndices` | src/indices.ts:1-20 | the loop's output equals `Indices(len)`; its length is `3 * TriangleCount(len)`; position `j` holds the 16-bit reduction of the closed form `4 * (j / 6) + [0,1,2,0,2,3][j % 6]` |
| `Indices.PushedTriangle` | src/indices.ts:10-18 | iteration `i` occupies positions `3i .. 3i+2` of the output, and later iterations do not change them |
| `Indices.EvenTriangle` | src/indices.ts:11-13 | for every even iteration `i` of `createIndices(len)`, positions `3i .. 3i+2` of `result` (before the `Uint16Array` conversion) are `(c, c+1, c+2)` with `c = 4 * (i / 2)` |
| `Indices.OddTriangle` | src/indices.ts:14-16 | for every odd iteration `i`, positions `3i .. 3i+2` of `result` (before the `Uint16Array` conversion) are `(c, c+2, c+3)` with `c = 4 * ((i - 1) / 2)` |
| `Indices.PushedAt` | src/indices.ts:10-18 | every pushed position `j` equals the closed form `IndexAt(j)` |
| `Indices.TwoIterations` | src/indices.ts:11-16 | iterations `2k` and `2k+1` together append exactly quad `k`, `[4k, 4k+1, 4k+2, 4k, 4k+2, 4k+3]` |
| `Indices.PushedQuads` | src/indices.ts:12-15 | iterations `2k` and `2k+1` share base `4k`: the first `2q` iterations push exactly the quads `[4k, 4k+1, 4k+2, 4k, 4k+2, 4k+3]` for `k < q`, in order |
| `Indices.WholeQuads` | src/indices.ts:10-19 | for `len` a non-negative multiple of 12, the output is that concatenation over `k < len / 12` |
| `Indices.TriangleBound` | src/indices.ts:12-16 | every index pushed by iteration `i` lies in `[0, 4 * (i / 2) + 3]` |
| `Indices.PushedBound` | src/indices.ts:10-18 | after `t` iterations every index is below `4 * ceil(t / 2)`, the vertex count of the quads touched |
| `Indices.IndicesBelowVertexCount` | src/indices.ts:10-19 | for `len` a non-negative multiple of 12, every returned index is below the vertex count `len / 3` |
| `Indices.EveryVertexUsed` | src/indices.ts:10-18 | after `2q` iterations each vertex `v < 4q` appears in some triangle |
| `Indices.PushedPrefix` | src/indices.ts:2-18 | iterations only append: the output of fewer iterations is a prefix of the output of more |
| `Indices.IndicesPrefix` | src/indices.ts:1-20 | for `len <= len'`, `createIndices(len)` is a prefix of `createIndices(len')` |
| `Indices.EmptyForNonPositive` | src/indices.ts:3-10 | there is no error path: the output is empty if and only if `len <= 0` |
| `Indices.Lossless` | src/indices.ts:19 | the `Uint16Array` holds exactly the pushed values if and only if `len <= 196608` |
| `Indices.FirstWrap` | src/indices.ts:12-19 | for `len > 196608` position 98304 is pushed as 65536 and stored as 0 |
| `Indices.OneQuad` | src/indices.ts:10-19 | `len = 12`, one quad of 3-D vertices, gives `[0, 1, 2, 0, 2, 3]` |
| `Indices.TwoQuads` | src/indices.ts:10-19 | `len = 24` gives `[0, 1, 2, 0, 2, 3, 4, 5, 6, 4, 6, 7]` |
| `Indices.RoundsUp` | src/indices.ts:10 | `len = 7` runs two iterations, giving six indices, and `len = 6` runs one |

## Left out

- `src/app.ts` is not part of this model. It holds WebGL context setup,
  shader compilation, buffer upload, `gl-matrix` float matrix math and the
  animation loop. All of that is calls into the graphics API and float
  time-stepping.
- `createRandomColors` (`src/colors.ts`) is left out. Its values come from
  `Math.random()`, a foreign and non-deterministic source.
- `webpack.config.js` is left out. It is build configuration with no logic.
- A non-integer, infinite or NaN `len` is not modelled. The model takes
  `len` as an integer.
- The limit of 2^32 - 1 elements on a JavaScript array is not modelled.
  In the source, a `result.push` past that length (any `len` above
  8589934590) throws a `RangeError`, and real engines run out of memory
  much earlier. The model's sequences are unbounded, so it returns a result
  for every integer `len` instead.
- The `Uint16Array` is modelled as the sequence of its elements. It is not
  modelled as a heap object, so aliasing and later mutation of the buffer
  are not captured. `createIndices` returns a fresh array that nothing else
  references.
