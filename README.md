# mpu: a staged matrix-circuit interpreter, in Dafny

mpu describes matrix computations as *circuits*: string diagrams built from the identity,
a braid, primitive operators, and sequential (`seq`) and parallel (`par`) composition. A
circuit is applied to an *object* (the unit, a matrix handle, or a pair of objects). Applying
it does no arithmetic. It **traces**: each matrix operator asks an environment (`Env`) to
allocate a zero-filled destination buffer and to schedule one instruction that will write it.
`Env.execute()` later runs the tape of instructions in order. Each instruction calls one
kernel of a `MatrixBuffer` (a shape plus a row-major `Float64Array`). The kernel checks the
shapes of its operands, throws a `ShapeError` when they do not fit, and otherwise overwrites
its destination in place.

The project has these modules:

- `Shapes` (`shapes.dfy`): the shape record, its capacity and equality, and the row-major
  index `row * width + col` with its arithmetic facts.
- `Kernels` (`kernels.dfy`): every buffer kernel stated on values. Each kernel is a function
  from the old contents of the destination and the operands to the new contents, or to the
  error it raises before writing. The module also holds the properties of the kernels:
  transposition is an involution, `mul` accumulates a matrix product, the two `sumk`
  variants, `equals`, and others.
- `Buffers` (`buffer.dfy`): the class `MatrixBuffer`, a `const` shape and an `array<real>`.
  Each kernel is a method with the source's loops. It is proved to leave in its array exactly
  what the `Kernels` function prescribes. A method that fails reports the error and leaves the
  array unchanged.
- `Runtime` (`runtime.dfy`): the `Matrix` handle and the instruction tape. `Step` and `Replay`
  state on values what executing one instruction, or a whole tape, does. The class `Env` holds
  the arena of `MatrixBuffer` objects and the tape. Its tracing methods are proved against
  `Emit`. Its `Execute` loop is proved equal to `Replay`.
- `Circuits` (`circuits.dfy`): objects, circuits, `seq`/`par`, and `Apply`, which is tracing
  stated as a pure function of the trace state. The `Run` methods trace on a real `Env` and
  are proved to produce exactly what `Apply` says. The module's lemmas give the algebra of
  tracing: the simplifications of `seq` keep meaning, braid is an involution, `ui ; ue` is the
  identity, and parallel interchange holds.
- `Scenarios` (`scenarios.dfy`): concrete cases. The `mul` and `dual` cases follow the
  repository's `MatrixBuffer` sanity check. The `copy ; add` and traced `mul` cases have no
  counterpart in the repository's tests; they exercise the circuit tracer and the tape.
  - `mul` of [1 2; 3 4] and [5 6; 7 8] is [19 22; 43 50].
  - `dual` of [1 2; 3 4] is [1 3; 2 4].
  - The circuit `copy ; add`, traced on a constant [3 4] and executed, leaves [6 8] in its
    output buffer.
  - `mul` traced on two constants and executed leaves the product in its output buffer.
    Executing the same tape again leaves twice the product, because `mul` adds onto its
    destination.

The repository holds two copies of the buffer and of the environment. `buffer.ts` with
`matrix.ts` forms one copy. `circuit.ts` forms the other, and it inlines its own
`MatrixBuffer` and `Env`. The two copies agree except in `sumk`:

- `buffer.ts` writes each row's sum into column `k` of that row.
- `circuit.ts` writes the sum of the whole buffer into flat index `k`.

Both are modelled: `Kernels.SumkRows` and `Kernels.SumkFlat`, and the methods
`Buffers.MatrixBuffer.Sumk` and `Buffers.MatrixBuffer.SumkFlat`. An `Env` is built with a
`SumkRule` that says which of the two its buffers implement.

The following are parameters of the model:

- Floating-point `Math.cos` and `Math.sin` are a `Kernels.Trig` record of two functions that
  the model does not interpret.
- `Math.random` is a stream of draws: `random(i)` for element `i` of a buffer, and
  `random(p)(i)` for the instruction at tape position `p` during `execute`.
- Numbers are mathematical reals.

`execute` throws the first kernel error it meets. The model returns that error, and the rest
of the tape does not run (`Runtime.ReplayStopsAtError`). The source's tracing methods throw
an `Ob` error or a `ParameterError`. The model returns these as `Err(...)` of a `CircuitError`.

## Model

| member | source | states |
|---|---|---|
| Shapes.Shape.Equals | shape.ts:22-24 | `equals` holds exactly when both dimensions agree, so it is equality of shapes |
| Shapes.EqualsReflexive | shape.ts:22-24 | every shape equals itself |
| Shapes.EqualsSymmetric | shape.ts:22-24 | `a.equals(b)` and `b.equals(a)` agree |
| Shapes.EmptyCapacity | shape.ts:18-20 | the capacity `height * width` is zero exactly when one of the dimensions is zero |
| Shapes.EqualShapesEqualCapacity | shape.ts:18-24 | equal shapes have the same capacity, `height * width` |
| Shapes.IdxDivMod | buffer.ts:152-154 | the flat index `row * width + col` gives back `row` by division and `col` by remainder |
| Shapes.FlatIdx | buffer.ts:150-155 | every flat index below the capacity is `row * width + col` for a unique in-range (row, col) |
| Kernels.Blank | buffer.ts:21-25 | a buffer built without values has the shape's capacity and holds only zeros |
| Kernels.Fill | buffer.ts:40-50 | `zero` and `one` keep the shape and set every element to the value |
| Kernels.RandomUniform | buffer.ts:58-63 | element i becomes `min + random(i) * (max - min)`, and the shape is kept |
| Kernels.Elementwise | buffer.ts:76-127 | a unary kernel succeeds exactly when the shapes are equal, otherwise raises `ShapeError` named after the kernel, and on success keeps the destination's shape |
| Kernels.Relu | buffer.ts:76-83 | succeeds exactly when dst and src have the same shape; the result has dst's shape |
| Kernels.Cos | buffer.ts:85-92 | succeeds exactly when dst and src have the same shape; the result has dst's shape |
| Kernels.Sin | buffer.ts:94-101 | succeeds exactly when dst and src have the same shape; the result has dst's shape |
| Kernels.Cis | buffer.ts:103-114 | succeeds exactly when dst and src have the same shape; the result has dst's shape |
| Kernels.Sic | buffer.ts:116-127 | succeeds exactly when dst and src have the same shape; the result has dst's shape |
| Kernels.Dual | buffer.ts:65-74 | succeeds exactly when dst's height is src's width and dst's width is src's height |
| Kernels.Binary | buffer.ts:129-170 | a binary elementwise kernel succeeds exactly when all three shapes are equal, otherwise raises `ShapeError` named after it |
| Kernels.Add | buffer.ts:129-139 | succeeds exactly when dst, fst and snd have one shape |
| Kernels.Point | buffer.ts:160-170 | succeeds exactly when dst, fst and snd have one shape |
| Kernels.Mul | buffer.ts:141-158 | succeeds exactly when dst is fst.height × snd.width and fst.width is snd.height |
| Kernels.Product | buffer.ts:148-157 | the product of an h×n and an n×w matrix is h×w |
| Kernels.SumkRows | buffer.ts:172-189 | per-row sumk succeeds exactly when the shapes are equal |
| Kernels.SumkFlat | circuit.ts:659-674 | flat sumk succeeds exactly when the shapes are equal |
| Kernels.ReluIsMaxWithZero | buffer.ts:76-83 | relu gives `max(x, 0)` at every index, is never negative, and applying it again changes nothing |
| Kernels.CisSicInterleave | buffer.ts:103-127 | cis takes cos at even flat indices and sin at odd ones; sic does the opposite |
| Kernels.CisIsSicSwapped | buffer.ts:103-127 | cis is sic with cosine and sine exchanged |
| Kernels.TransposedAt | buffer.ts:70-73 | flat index i of the dual holds src[i mod width, i div width] |
| Kernels.DualAt | buffer.ts:70-73 | element (row, col) of the dual is element (col, row) of src |
| Kernels.DualInvolution | buffer.ts:65-74 | dual into a transposed buffer always succeeds, and dualling the result back gives the original matrix |
| Kernels.AddCommutes | buffer.ts:129-139 | add gives the same result, or the same error, with its operands swapped |
| Kernels.PointCommutes | buffer.ts:160-170 | point gives the same result, or the same error, with its operands swapped |
| Kernels.MulAt | buffer.ts:148-157 | mul adds to dst[row, col] the dot product of row `row` of fst and column `col` of snd |
| Kernels.MulFromZero | buffer.ts:141-158 | into a zero-filled destination, mul gives exactly the matrix product |
| Kernels.MulAccumulates | buffer.ts:153-155 | mul does not clear its destination: running it twice adds the product twice |
| Kernels.DotIsSum | buffer.ts:150-155 | the inner loop's dot product is the sum over k of fst[row, k] * snd[k, col] |
| Kernels.ProductEntries | buffer.ts:148-157 | each in-range entry of the product is the sum of products of a row of fst and a column of snd; outside the shape there is none |
| Kernels.MatMulAssociative | buffer.ts:148-157 | the sum-of-products matrix product is associative entry by entry |
| Kernels.ProductAssociative | buffer.ts:141-158 | the matrix product that mul computes into a zero-filled buffer is associative: (fst snd) third equals fst (snd third) |
| Kernels.SumkRowsAt | buffer.ts:176-188 | per-row sumk puts each row's sum in column k when k is a column index, and 0 everywhere else |
| Kernels.SumkRowsOutOfRange | buffer.ts:182-186 | when k is not a column index (a fraction, negative, or too large), per-row sumk zeroes the whole buffer |
| Kernels.SumkFlatAt | circuit.ts:663-673 | flat sumk puts the sum of all elements at flat index k, and 0 everywhere else |
| Kernels.SumkFlatOutOfRange | circuit.ts:667-673 | when k is not a flat index, flat sumk zeroes the whole buffer |
| Kernels.SetValues | buffer.ts:52-56 | `set` keeps the shape; fewer values than the capacity overwrite a prefix and keep the rest, more values are cut off at the capacity |
| Kernels.Close | buffer.ts:191-203 | buffers that compare equal have the same shape, and every buffer compares equal to itself |
| Kernels.SetValuesFull | buffer.ts:52-56 | `set` with exactly capacity values makes the buffer hold those values |
| Kernels.CloseProperties | buffer.ts:191-203 | equals is reflexive and symmetric, and is false when the dimensions differ |
| Buffers.MatrixBuffer.constructor | buffer.ts:12-26 | a buffer holds the given values, or zeros of the shape's capacity when none are given |
| Buffers.MatrixBuffer.Fill | buffer.ts:40-50 | every element becomes v |
| Buffers.MatrixBuffer.Zero | buffer.ts:40-44 | every element becomes 0 |
| Buffers.MatrixBuffer.One | buffer.ts:46-50 | every element becomes 1 |
| Buffers.MatrixBuffer.Set | buffer.ts:52-56 | values[i] is written at i for each i < capacity; writes past the end are dropped, and the rest is kept |
| Buffers.MatrixBuffer.RandomUniform | buffer.ts:58-63 | the array holds `Kernels.RandomUniform` of its old contents |
| Buffers.MatrixBuffer.Relu | buffer.ts:76-83 | the array ends as `Kernels.Relu` prescribes; on a shape error the error is reported and the array is unchanged |
| Buffers.MatrixBuffer.Cos | buffer.ts:85-92 | the array ends as `Kernels.Cos` prescribes; on a shape error the error is reported and the array is unchanged |
| Buffers.MatrixBuffer.Sin | buffer.ts:94-101 | the array ends as `Kernels.Sin` prescribes; on a shape error the error is reported and the array is unchanged |
| Buffers.MatrixBuffer.Cis | buffer.ts:103-114 | the array ends as `Kernels.Cis` prescribes; on a shape error the error is reported and the array is unchanged |
| Buffers.MatrixBuffer.Sic | buffer.ts:116-127 | the array ends as `Kernels.Sic` prescribes; on a shape error the error is reported and the array is unchanged |
| Buffers.MatrixBuffer.Add | buffer.ts:129-139 | the array ends as `Kernels.Add` prescribes; on a shape error the error is reported and the array is unchanged |
| Buffers.MatrixBuffer.Point | buffer.ts:160-170 | the array ends as `Kernels.Point` prescribes; on a shape error the error is reported and the array is unchanged |
| Buffers.MatrixBuffer.Dual | buffer.ts:65-74 | the row-by-row loop leaves the transpose of src, as `Kernels.Dual` prescribes, or reports the shape error and changes nothing |
| Buffers.MatrixBuffer.Mul | buffer.ts:141-158 | the row, dot, col loops add the product onto the old contents, as `Kernels.Mul` prescribes, or report the shape error and change nothing |
| Buffers.MatrixBuffer.RowSumOf | buffer.ts:177-180 | the loop computes the sum of the elements of one row |
| Buffers.MatrixBuffer.Sumk | buffer.ts:172-189 | per-row sumk leaves what `Kernels.SumkRows` prescribes, even when src is this buffer, or reports the shape error |
| Buffers.MatrixBuffer.SumkFlat | circuit.ts:659-674 | flat sumk leaves what `Kernels.SumkFlat` prescribes, even when src is this buffer, or reports the shape error |
| Buffers.MatrixBuffer.Equals | buffer.ts:191-203 | true exactly when the dimensions agree and every pair of elements is within 1e-4 |
| Runtime.Emit | matrix.ts:81-91 | allocate-then-schedule returns a handle of the new state with the requested shape, naming a buffer no old handle names |
| Runtime.EmitValid | matrix.ts:81-91 | allocate-then-schedule adds one buffer and one instruction writing it, returns that buffer's handle, and keeps old handles valid |
| Runtime.Store | matrix.ts:97-158 | a kernel's result replaces its destination; an error is recorded and the arena is kept |
| Runtime.Step | matrix.ts:97-158 | one instruction changes only its destination buffer, and keeps every shape |
| Runtime.Kernel | matrix.ts:99-156 | the kernel an instruction names either raises or yields a well-formed buffer of its destination's shape |
| Runtime.Replay | matrix.ts:97-158 | executing a tape keeps the number and shapes of the buffers |
| Runtime.ReplayStopsAtError | matrix.ts:97-158 | once an instruction raises, the rest of the tape has no effect |
| Runtime.ReplayKeepsUnwritten | matrix.ts:97-158 | a buffer that no instruction writes keeps its contents through execution |
| Runtime.ReplayOneMore | matrix.ts:97-158 | after a prefix of the tape has run without error, running one more instruction is one more step on its result |
| Runtime.ReplayMulFromBlank | matrix.ts:148-151 | the first execution of a traced mul, whose destination was allocated zero-filled and written by nothing before, leaves exactly the product of its operands' current contents and changes no other buffer |
| Runtime.ReplayMulTwice | matrix.ts:148-151 | executing the same tape a second time, with operands recomputed to the same contents, leaves twice the product in the mul's destination, because mul accumulates |
| Runtime.ConstantTooLong | matrix.ts:108-111 | a constant with more values than its buffer holds raises a RangeError and writes nothing |
| Runtime.DualTracePasses | matrix.ts:194-203 | the traced dual allocates its destination with src's own shape, so its kernel succeeds exactly when src is square |
| Runtime.MulTracePasses | matrix.ts:300-310 | the traced mul allocates with fst's shape, so its kernel succeeds exactly when snd is fst.width × fst.width |
| Runtime.Env.constructor | matrix.ts:76-79 | a new environment has no buffers and an empty tape |
| Runtime.Env.Allocate | matrix.ts:81-87 | adds a fresh zero-filled buffer at index `length` and returns its handle; the tape is unchanged |
| Runtime.Env.Schedule | matrix.ts:89-91 | appends the instruction to the tape and touches no buffer |
| Runtime.Env.Load | matrix.ts:93-95 | returns the buffer a handle names, with the handle's shape |
| Runtime.Env.Trace | matrix.ts:160-168 | allocate then schedule: the state becomes `Emit` of the old state |
| Runtime.Env.Zero | matrix.ts:160-168 | traces `zero` on a new buffer of the shape |
| Runtime.Env.One | matrix.ts:170-178 | traces `one` on a new buffer of the shape |
| Runtime.Env.Constant | matrix.ts:180-192 | traces `constant` with its values on a new buffer of the shape |
| Runtime.Env.RandomUniform | matrix.ts:272-286 | traces `randomUniform(min, max)` on a new buffer of the shape |
| Runtime.Env.Dual | matrix.ts:194-203 | traces `dual` into a new buffer of src's shape (not the transposed shape) |
| Runtime.Env.Relu | matrix.ts:205-214 | traces `relu` into a new buffer of src's shape |
| Runtime.Env.Cos | matrix.ts:216-225 | traces `cos` into a new buffer of src's shape |
| Runtime.Env.Sin | matrix.ts:227-236 | traces `sin` into a new buffer of src's shape |
| Runtime.Env.Cis | matrix.ts:238-247 | traces `cis` into a new buffer of src's shape |
| Runtime.Env.Sic | matrix.ts:249-258 | traces `sic` into a new buffer of src's shape |
| Runtime.Env.Sumk | matrix.ts:260-270 | traces `sumk(k)` into a new buffer of src's shape |
| Runtime.Env.Add | matrix.ts:288-298 | traces `add` into a new buffer of fst's shape |
| Runtime.Env.Mul | matrix.ts:300-310 | traces `mul` into a new buffer of fst's shape |
| Runtime.Env.Point | matrix.ts:312-322 | traces `point` into a new buffer of fst's shape |
| Runtime.Env.Perform | matrix.ts:98-156 | one instruction run on the real buffers leaves the arena that `Step` prescribes, and returns the error it raises |
| Runtime.Env.Execute | matrix.ts:97-158 | running the tape in order leaves the arena that `Replay` prescribes, and returns the first error |
| Circuits.ShapeArg | circuit.ts:334-339 | an operator's first parameter denotes a shape exactly when it is a shape or an array |
| Circuits.ApplyOperator | circuit.ts:324-424 | applied to an object whose handles are valid, an operator leaves a valid state that extends the old one, whether it succeeds or fails, and on success the object it returns has valid handles in that state |
| Circuits.ApplyStructural | circuit.ts:326-424 | ui, ue, drop and copy never touch the state and return only objects whose handles were already valid |
| Circuits.ApplyFill | circuit.ts:333-371 | zero, one, constant and randomUniform leave a valid state that extends the old one, and on success the handle they return is valid in it |
| Circuits.ApplyUnary | circuit.ts:372-396 | the one-matrix operators, given a valid object, leave a valid state that extends the old one, and on success the handle they return is valid in it |
| Circuits.ApplyBinary | circuit.ts:397-414 | add, mul and point, given a valid object, leave a valid state that extends the old one, and on success the handle they return is valid in it |
| Circuits.Apply | circuit.ts:259-275 | tracing only extends the state, and any object it returns names buffers of the new state |
| Circuits.Then | circuit.ts:456-459 | continuing a trace only extends it further |
| Circuits.Seq | circuit.ts:147-152 | `seq`, with the overrides of `Id` (circuit.ts:255-257) and `Sequence` (circuit.ts:449-454), keeps the flat list of non-identity steps: that of the result is that of the left circuit followed by that of the right |
| Circuits.Par | circuit.ts:154-156 | `par` builds a parallel node of its two halves, well formed exactly when both halves are |
| Circuits.SeqId | circuit.ts:147-152 | seq with the identity on either side gives back the other circuit |
| Circuits.SeqWellFormed | circuit.ts:449-454 | re-associating by seq keeps a circuit well formed |
| Circuits.ApplySeq | circuit.ts:449-459 | tracing `x.seq(y)` is tracing x and then y on its output, whatever identities and nested sequences x holds |
| Circuits.BraidInvolutive | circuit.ts:273-275 | braid followed by braid gives back a pair, and fails with "not a pair" on anything else |
| Circuits.UiThenUe | circuit.ts:326-332 | `ui ; ue` is the identity on every object and traces nothing |
| Circuits.ParallelInterchange | circuit.ts:484-488 | `(f ⊗ id) ; (id ⊗ g)` traces the same buffers and instructions, in the same order, as `f ⊗ g` |
| Circuits.OperatorTrace | circuit.ts:324-424 | an operator that makes a matrix traces exactly one new buffer and one instruction writing it, and returns its handle; any other operator, and any failure, leaves the state alone |
| Circuits.RunOperator | circuit.ts:324-424 | tracing one operator on a real Env does exactly what `ApplyOperator` says, and adds only fresh zero-filled buffers |
| Circuits.RunStructural | circuit.ts:326-424 | on a real Env, ui, ue, drop and copy do what `ApplyStructural` says and allocate nothing |
| Circuits.RunFill | circuit.ts:333-371 | on a real Env, the filling operators do what `ApplyFill` says, adding at most one fresh zero-filled buffer |
| Circuits.RunUnary | circuit.ts:372-396 | on a real Env, the one-matrix operators do what `ApplyUnary` says, adding at most one fresh zero-filled buffer |
| Circuits.RunBinary | circuit.ts:397-414 | on a real Env, add, mul and point do what `ApplyBinary` says, adding at most one fresh zero-filled buffer |
| Circuits.Run | circuit.ts:259-488 | tracing any circuit on a real Env does exactly what `Apply` says, and adds only fresh zero-filled buffers |
| Circuits.RunSequence | circuit.ts:456-459 | a sequence traces its first half, then its second half on the first half's output |
| Circuits.RunParallel | circuit.ts:484-488 | a parallel circuit traces its first half on the pair's first component, then its second half on the second component |
| Scenarios.AddPointExample | buffer.ts:129-170 | add of [1 2; 3 4] and [5 6; 7 8] into a fresh buffer is [6 8; 10 12], and point of them is [5 12; 21 32] |
| Scenarios.OperandsReplay | matrix.ts:97-158 | running two traced constants on three 2×2 buffers raises nothing, fills the first two with the constants and leaves the third alone |
| Scenarios.MulTapeOnce | matrix.ts:97-158 | the tape constant, constant, mul run on three zero-filled 2×2 buffers leaves [19 22; 43 50] in the third |
| Scenarios.MulTapeAgain | matrix.ts:97-158 | running that tape once more on its own result leaves [38 44; 86 100], twice the product, in the third buffer |
| Scenarios.MulTraced | matrix.ts:180-192 | tracing two constants and their mul on a fresh environment gives three zero-filled 2×2 buffers, that tape, and the handle of the third buffer |
| Scenarios.ExecuteAndRead | matrix.ts:97-158 | executing an environment and reading one handle's buffer gives that buffer's contents after the replay of the tape |
| Scenarios.MulExecutedTwice | matrix.ts:97-158 | on a real environment, the traced mul's output reads [19 22; 43 50] after one execute and [38 44; 86 100] after a second |
| Scenarios.MulExample | test.ts:137-157 | mul of [1 2; 3 4] and [5 6; 7 8] into a fresh buffer equals [19 22; 43 50] |
| Scenarios.ProductExample | test.ts:137-157 | the product of [1 2; 3 4] and [5 6; 7 8] is [19 22; 43 50] |
| Scenarios.DualExample | test.ts:48-63 | dual of [1 2; 3 4] into a fresh buffer equals [1 3; 2 4] |
| Scenarios.CopyAddExample | circuit.ts:737-798 | a scenario of this model, with no test counterpart: `copy ; add` traced on a constant [3 4] by the circuit module's `Env` and executed leaves [6 8] in the output buffer |
| Scenarios.CopyAddTrace | circuit.ts:397-422 | through `Sequence.apply` (circuit.ts:456-459), the copy case gives the pair (h, h) and the add case then emits one add reading h twice into a new buffer |
| Scenarios.CopyAddTraced | circuit.ts:928-938 | a fresh flat-sumk `Env` after `constant` (circuit.ts:820-832) and the traced `copy ; add` holds two zero-filled buffers and the two instructions |
| Scenarios.CopyAddReplay | circuit.ts:784-787 | replaying that tape, whose add case reads the same buffer twice, raises nothing and leaves [6 8] in the second buffer |

## Left out

- Floating point: numbers are mathematical reals. The model has no rounding, NaN or infinities.
  Because of this, `equals` with a NaN element and `Math.abs` of it are not captured.
- `Math.cos`, `Math.sin` and `Math.random` are parameters. The model states which element each
  one is applied to, not what it returns.
- `ShapeLike` as an array: the source reads only `shape[0]` and `shape[1]` (matrix.ts:19,
  buffer.ts:19). The model accepts an array used as a shape only when it holds exactly two
  non-negative integers (`Circuits.WellFormed`). Three things are excluded:
  - a longer array, which the source turns into an ordinary shape from its first two entries;
  - a one-element array, which gives an undefined width;
  - fractional or negative entries. A negative capacity, such as that of [-2, 3], makes the
    allocation raise a RangeError. The other cases give a buffer of `height * width` elements
    (six for [-2, -3], five for [2.5, 2]) whose kernel loops run over negative or fractional
    bounds.
- `Shapes.Shape` has `nat` dimensions. A `Shape` object with negative or fractional
  dimensions, which circuit.ts:336 accepts as a parameter through `instanceof Shape`, is
  excluded for the same reason.
- `Buffers.MatrixBuffer.constructor` requires the initial values to fill the shape exactly.
  The source accepts any length and then has a buffer whose length differs from its capacity.
- `Buffers.MatrixBuffer.Dual` requires src to be another buffer. A square buffer dualled into
  itself overwrites elements before reading them, and that aliasing is not modelled.
- `Buffers.MatrixBuffer.Mul` requires both operands to be other buffers, for the same reason.
- `Runtime.Env.Load` requires a handle of this environment (`HandleValid`). The source indexes
  its array by the handle's uid (matrix.ts:93-95). A foreign handle whose uid is below the
  arena's length gets another buffer, possibly of another shape. Only an out-of-range uid gives
  `undefined`. The tracing methods `Runtime.Env.Dual` through `Runtime.Env.Point` load their
  operands, so they carry the same requirement. So do `Circuits.Apply`, `Circuits.ApplyOperator`
  and the `Circuits.Run` methods, which require every handle in their input object to be one of
  the environment's (`ObValid`).
- `Runtime.Env.Constant` captures the values when it traces. The source keeps a reference to
  the caller's array (matrix.ts:185-189), so a change to that array before `execute` is seen
  by the run. The model does not capture that aliasing.
- Errors: the source throws. `ShapeError` keeps the buffers it was given, and the `Ob` errors
  are template strings. The model returns a `KernelError` or a `CircuitError` naming the kind
  of failure. It does not keep message text or attached buffers.
- `toString` on shapes, objects, circuits and errors is not modelled: it only formats text.
- The static circuit factories (`Circuit.zero`, `Circuit.add`, and so on) are not modelled as
  functions. They only build an `Operator` with a name and parameters, which is a constructor
  of `Circuits.Circuit` here.
- The module-level singleton runtime and the test harness's random example matrices are not
  part of this model.
