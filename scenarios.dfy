/**
 * Concrete cases in the style of the repository's sanity checks: a destination buffer is
 * allocated with the expected shape, the kernel runs, and the result is compared with
 * equals(). The last case traces a circuit, executes the tape, and reads the output buffer.
 */
module Scenarios {
  import opened Wrappers
  import opened Shapes
  import K = Kernels
  import B = Buffers
  import RT = Runtime
  import C = Circuits

  /** [1 2; 3 4] times [5 6; 7 8] is [19 22; 43 50]. */
  lemma ProductExample(f: K.Buf, g: K.Buf)
    requires f == K.Buf(Shape(2, 2), [1.0, 2.0, 3.0, 4.0]) && g == K.Buf(Shape(2, 2), [5.0, 6.0, 7.0, 8.0])
    ensures K.Product(f, g).elems == [19.0, 22.0, 43.0, 50.0]
  {
    var p := K.Product(f, g);
    assert p.elems[0] == K.Dot(f, g, 0, 0, 2);
    assert p.elems[1] == K.Dot(f, g, 0, 1, 2);
    assert p.elems[2] == K.Dot(f, g, 1, 0, 2);
    assert p.elems[3] == K.Dot(f, g, 1, 1, 2);
  }

  /** add() and point() of [1 2; 3 4] and [5 6; 7 8] into a fresh 2x2 buffer. */
  lemma AddPointExample(dst: K.Buf, f: K.Buf, g: K.Buf)
    requires dst == K.Blank(Shape(2, 2))
    requires f == K.Buf(Shape(2, 2), [1.0, 2.0, 3.0, 4.0]) && g == K.Buf(Shape(2, 2), [5.0, 6.0, 7.0, 8.0])
    ensures K.Add(dst, f, g) == Ok(K.Buf(Shape(2, 2), [6.0, 8.0, 10.0, 12.0]))
    ensures K.Point(dst, f, g) == Ok(K.Buf(Shape(2, 2), [5.0, 12.0, 21.0, 32.0]))
  {
    assert K.Add(dst, f, g).value.elems == [6.0, 8.0, 10.0, 12.0];
    assert K.Point(dst, f, g).value.elems == [5.0, 12.0, 21.0, 32.0];
  }

  /** mul() into a fresh 2x2 buffer yields the product. */
  method MulExample() returns (ok: bool)
    ensures ok
  {
    var s := Shape(2, 2);
    var fst := new B.MatrixBuffer(s, Some([1.0, 2.0, 3.0, 4.0]));
    var snd := new B.MatrixBuffer(s, Some([5.0, 6.0, 7.0, 8.0]));
    var expected := new B.MatrixBuffer(s, Some([19.0, 22.0, 43.0, 50.0]));
    var actual := new B.MatrixBuffer(s, None);
    ProductExample(fst.Value(), snd.Value());
    K.MulFromZero(actual.Value(), fst.Value(), snd.Value());
    var err := actual.Mul(fst, snd);
    K.CloseProperties(actual.Value(), expected.Value());
    ok := actual.Equals(expected);
  }

  /** dual() of [1 2; 3 4] into a fresh 2x2 buffer is [1 3; 2 4]. */
  method DualExample() returns (ok: bool)
    ensures ok
  {
    var s := Shape(2, 2);
    var src := new B.MatrixBuffer(s, Some([1.0, 2.0, 3.0, 4.0]));
    var expected := new B.MatrixBuffer(s, Some([1.0, 3.0, 2.0, 4.0]));
    var actual := new B.MatrixBuffer(s, None);
    var err := actual.Dual(src);
    var t := K.Transposed(s, src.Value());
    K.TransposedAt(s, src.Value(), 1);
    K.TransposedAt(s, src.Value(), 2);
    assert t == [1.0, 3.0, 2.0, 4.0];
    assert actual.Value() == expected.Value();
    K.CloseProperties(actual.Value(), expected.Value());
    ok := actual.Equals(expected);
  }

  /** Executing the tape of constant [3 4] followed by copy ; add doubles the constant. */
  lemma CopyAddReplay(trig: K.Trig, random: nat -> nat -> real)
    ensures var s := Shape(1, 2);
            var code := [RT.Instr(0, RT.Constant([3.0, 4.0])), RT.Instr(1, RT.Add(0, 0))];
            var r := RT.Replay([K.Blank(s), K.Blank(s)], code, RT.Flat, trig, random);
            r.err == None && r.data[1].elems == [6.0, 8.0]
  {
    var s := Shape(1, 2);
    var code := [RT.Instr(0, RT.Constant([3.0, 4.0])), RT.Instr(1, RT.Add(0, 0))];
    var data := [K.Blank(s), K.Blank(s)];
    assert code[..1][..0] == [];
    assert RT.Replay(data, code[..1][..0], RT.Flat, trig, random) == RT.Exec(data, None);
    K.SetValuesFull(data[0], [3.0, 4.0]);
    var r1 := RT.Replay(data, code[..1], RT.Flat, trig, random);
    assert r1.err == None && r1.data[0] == K.Buf(s, [3.0, 4.0]) && r1.data[1] == K.Blank(s);
  }

  /** Tracing copy ; add on the handle of a constant schedules one add reading that handle twice. */
  lemma CopyAddTrace(s: Shape)
    ensures var st := RT.EnvState([s], [RT.Instr(0, RT.Constant([3.0, 4.0]))]);
            var c := C.Sequence(C.Operator(C.Copy, []), C.Operator(C.Add, []));
            && RT.StateValid(st) && C.WellFormed(c) && C.ObValid(st, C.Mat(RT.Matrix(s, 0)))
            && C.Apply(c, C.Mat(RT.Matrix(s, 0)), st)
               == C.Traced(Ok(C.Mat(RT.Matrix(s, 1))), RT.EnvState([s, s], st.code + [RT.Instr(1, RT.Add(0, 0))]))
  {
    var st := RT.EnvState([s], [RT.Instr(0, RT.Constant([3.0, 4.0]))]);
    var m := C.Mat(RT.Matrix(s, 0));
    assert C.Apply(C.Operator(C.Copy, []), m, st) == C.Traced(Ok(C.Pair(m, m)), st);
    assert C.Apply(C.Operator(C.Add, []), C.Pair(m, m), st) == C.Emitted(st, s, RT.Add(0, 0));
  }

  /** Traces copy ; add on a constant [3 4] in a new environment, without executing. */
  method CopyAddTraced() returns (env: RT.Env, h: RT.Matrix)
    ensures fresh(env) && fresh(env.Buffers()) && env.Valid() && env.rule == RT.Flat && h == RT.Matrix(Shape(1, 2), 1)
    ensures env.State() == RT.EnvState([h.shape, h.shape], [RT.Instr(0, RT.Constant([3.0, 4.0])), RT.Instr(1, RT.Add(0, 0))])
    ensures env.Values() == [K.Blank(h.shape), K.Blank(h.shape)]
  {
    env := new RT.Env(RT.Flat);
    var s := Shape(1, 2);
    var m := env.Constant(s, [3.0, 4.0]);
    assert env.State() == RT.EnvState([s], [RT.Instr(0, RT.Constant([3.0, 4.0]))]);
    assert env.Values() == [K.Blank(s)];
    CopyAddTrace(s);
    var r := C.Run(C.Sequence(C.Operator(C.Copy, []), C.Operator(C.Add, [])), C.Mat(m), env);
    h := RT.Matrix(s, 1);
  }

  /**
   * The circuit copy ; add traced on a constant [3 4] and executed: its output handle names
   * a buffer holding [6 8].
   */
  method CopyAddExample(trig: K.Trig, random: nat -> nat -> real) returns (out: seq<real>)
    ensures out == [6.0, 8.0]
  {
    var env, h := CopyAddTraced();
    ghost var before := env.Values();
    CopyAddReplay(trig, random);
    var err := env.Execute(trig, random);
    var b := env.Load(h);
    assert b.Value() == env.Values()[1];
    out := b.buffer[..];
  }

  /** The two constants [1 2; 3 4] and [5 6; 7 8], scheduled into buffers 0 and 1. */
  const Operands: seq<RT.Instr> :=
    [RT.Instr(0, RT.Constant([1.0, 2.0, 3.0, 4.0])), RT.Instr(1, RT.Constant([5.0, 6.0, 7.0, 8.0]))]

  /** Those constants, then their product into buffer 2. */
  const MulTape: seq<RT.Instr> := Operands + [RT.Instr(2, RT.Mul(0, 1))]

  /** Running the two constants on any three 2x2 buffers fills the first two and keeps the third. */
  lemma OperandsReplay(data: seq<K.Buf>, trig: K.Trig, random: nat -> nat -> real)
    requires |data| == 3 && RT.DataValid(data)
    requires forall i :: 0 <= i < 3 ==> data[i].shape == Shape(2, 2)
    ensures var r := RT.Replay(data, Operands, RT.PerRow, trig, random);
      && r.err == None
      && r.data == [K.Buf(Shape(2, 2), [1.0, 2.0, 3.0, 4.0]), K.Buf(Shape(2, 2), [5.0, 6.0, 7.0, 8.0]), data[2]]
  {
    var s := Shape(2, 2);
    assert Operands[..1][..0] == [];
    assert RT.Replay(data, Operands[..1][..0], RT.PerRow, trig, random) == RT.Exec(data, None);
    K.SetValuesFull(data[0], [1.0, 2.0, 3.0, 4.0]);
    var r1 := RT.Replay(data, Operands[..1], RT.PerRow, trig, random);
    assert r1.err == None && r1.data == data[0 := K.Buf(s, [1.0, 2.0, 3.0, 4.0])];
    K.SetValuesFull(r1.data[1], [5.0, 6.0, 7.0, 8.0]);
    assert Operands[..2] == Operands;
  }

  /**
   * Executing the constant, constant, mul tape on fresh buffers leaves the two constants in
   * their buffers and their product [19 22; 43 50] in the mul's buffer.
   */
  lemma MulTapeOnce(trig: K.Trig, random: nat -> nat -> real)
    ensures var s := Shape(2, 2);
      RT.Replay([K.Blank(s), K.Blank(s), K.Blank(s)], MulTape, RT.PerRow, trig, random)
        == RT.Exec([K.Buf(s, [1.0, 2.0, 3.0, 4.0]), K.Buf(s, [5.0, 6.0, 7.0, 8.0]), K.Buf(s, [19.0, 22.0, 43.0, 50.0])], None)
  {
    var s := Shape(2, 2);
    var data := [K.Blank(s), K.Blank(s), K.Blank(s)];
    var fst, snd := K.Buf(s, [1.0, 2.0, 3.0, 4.0]), K.Buf(s, [5.0, 6.0, 7.0, 8.0]);
    OperandsReplay(data, trig, random);
    RT.ReplayMulFromBlank(data, Operands, 2, 0, 1, RT.PerRow, trig, random);
    ProductExample(fst, snd);
    var once := RT.Replay(data, MulTape, RT.PerRow, trig, random);
    assert once.data[0] == fst && once.data[1] == snd && once.data[2] == K.Buf(s, [19.0, 22.0, 43.0, 50.0]);
  }

  /**
   * Executing that tape a second time without re-tracing recomputes the constants and adds
   * the product onto the mul's buffer again, leaving twice the product, [38 44; 86 100].
   */
  lemma MulTapeAgain(trig: K.Trig, random: nat -> nat -> real)
    ensures var s := Shape(2, 2);
      var once := [K.Buf(s, [1.0, 2.0, 3.0, 4.0]), K.Buf(s, [5.0, 6.0, 7.0, 8.0]), K.Buf(s, [19.0, 22.0, 43.0, 50.0])];
      RT.Replay(once, MulTape, RT.PerRow, trig, random)
        == RT.Exec([once[0], once[1], K.Buf(s, [38.0, 44.0, 86.0, 100.0])], None)
  {
    var s := Shape(2, 2);
    var fst, snd := K.Buf(s, [1.0, 2.0, 3.0, 4.0]), K.Buf(s, [5.0, 6.0, 7.0, 8.0]);
    var product := K.Buf(s, [19.0, 22.0, 43.0, 50.0]);
    var once := [fst, snd, product];
    OperandsReplay(once, trig, random);
    ProductExample(fst, snd);
    assert MulTape[..|MulTape| - 1] == Operands;
    var again := RT.Replay(once, Operands, RT.PerRow, trig, random);
    assert RT.Replay(once, MulTape, RT.PerRow, trig, random)
      == RT.Step(again.data, RT.Instr(2, RT.Mul(0, 1)), RT.PerRow, trig, random(2));
    assert K.Mul(product, fst, snd).value.elems == [38.0, 44.0, 86.0, 100.0];
  }

  /** Traces constant [1 2; 3 4], constant [5 6; 7 8] and their mul in a new environment. */
  method MulTraced() returns (env: RT.Env, h: RT.Matrix)
    ensures fresh(env) && fresh(env.Buffers()) && env.Valid() && env.rule == RT.PerRow
    ensures h == RT.Matrix(Shape(2, 2), 2) && env.State() == RT.EnvState([h.shape, h.shape, h.shape], MulTape)
    ensures env.Values() == [K.Blank(h.shape), K.Blank(h.shape), K.Blank(h.shape)]
  {
    env := new RT.Env(RT.PerRow);
    var s := Shape(2, 2);
    var a := env.Constant(s, [1.0, 2.0, 3.0, 4.0]);
    var b := env.Constant(s, [5.0, 6.0, 7.0, 8.0]);
    assert env.State() == RT.EnvState([s, s], Operands);
    h := env.Mul(a, b);
  }

  /** Executes the tape of env and reads the buffer h names. */
  method ExecuteAndRead(env: RT.Env, h: RT.Matrix, trig: K.Trig, random: nat -> nat -> real) returns (out: seq<real>)
    requires env.Valid() && RT.HandleValid(env.State(), h)
    modifies env.Buffers()
    ensures env.Valid() && env.Values() == RT.Replay(old(env.Values()), env.code, env.rule, trig, random).data
    ensures out == env.Values()[h.uid].elems
  {
    var err := env.Execute(trig, random);
    var b := env.Load(h);
    assert b.Value() == env.Values()[h.uid];
    out := b.buffer[..];
  }

  /**
   * The traced mul, executed twice on the same environment: the first execute leaves the
   * product in the output buffer, the second leaves twice the product.
   */
  method MulExecutedTwice(trig: K.Trig, random: nat -> nat -> real) returns (first: seq<real>, second: seq<real>)
    ensures first == [19.0, 22.0, 43.0, 50.0] && second == [38.0, 44.0, 86.0, 100.0]
  {
    var env, h := MulTraced();
    MulTapeOnce(trig, random);
    MulTapeAgain(trig, random);
    first := ExecuteAndRead(env, h, trig, random);
    second := ExecuteAndRead(env, h, trig, random);
  }
}
