/**
 * Circuits: a small categorical language over objects (the unit, matrix handles and pairs).
 * Applying a circuit to an object traces it: every matrix operator allocates a buffer and
 * schedules one instruction on the environment, and the result is the object the circuit
 * produces, made of handles to buffers that execution fills later.
 */
module Circuits {
  import opened Wrappers
  import opened Shapes
  import K = Kernels
  import RT = Runtime

  /** The objects circuits map: the unit, a matrix handle, or a pair. */
  datatype Ob = Unit | Mat(matrix: RT.Matrix) | Pair(fst: Ob, snd: Ob)

  datatype Opcode =
    | Ui | Ue
    | Zero | One | Constant | RandomUniform
    | Dual | Relu | Cos | Sin | Cis | Sic | Sumk
    | Add | Mul | Point
    | Drop | Copy

  /** An operator parameter: a number, an array of numbers, or a shape. */
  datatype Param = Num(num: real) | Values(values: seq<real>) | ShapeParam(shape: Shape)

  datatype Circuit =
    | Id
    | Braid
    | Operator(name: Opcode, parameter: seq<Param>)
    | Sequence(fst: Circuit, snd: Circuit)
    | Parallel(fst: Circuit, snd: Circuit)

  datatype CircuitError =
    | NotAPair
    | NotAMatrix
    | ExpectedUnit
    | ExpectedMatrix
    | ParameterError(circuit: Circuit)

  /** The circuits a sequence runs one after the other, with identities dropped. */
  function Atoms(c: Circuit): seq<Circuit> {
    match c
    case Id => []
    case Sequence(f, g) => Atoms(f) + Atoms(g)
    case _ => [c]
  }

  /**
   * Sequential composition with its simplifications: the identity is dropped and sequences
   * re-associate to the right. Whatever the shapes of c and rhs, the result runs the steps
   * of c and then those of rhs.
   */
  function Seq(c: Circuit, rhs: Circuit): (r: Circuit)
    ensures Atoms(r) == Atoms(c) + Atoms(rhs)
    decreases c
  {
    match c
    case Id => rhs
    case Sequence(f, g) =>
      if rhs.Id? then assert Atoms(c) + [] == Atoms(c); c
      else
        var r := Seq(f, Seq(g, rhs));
        assert Atoms(r) == Atoms(f) + (Atoms(g) + Atoms(rhs));
        r
    case _ => if rhs.Id? then assert Atoms(c) + [] == Atoms(c); c else Sequence(c, rhs)
  }

  /** Parallel composition. */
  function Par(c: Circuit, rhs: Circuit): (r: Circuit)
    ensures r.Parallel? && r.fst == c && r.snd == rhs
    ensures WellFormed(r) <==> WellFormed(c) && WellFormed(rhs)
    ensures Atoms(r) == [r]
  {
    Parallel(c, rhs)
  }

  /** seq with the identity on either side gives back the other circuit. */
  lemma SeqId(c: Circuit)
    ensures Seq(Id, c) == c && Seq(c, Id) == c
  {
  }

  /* Shapes given as parameters. */

  /** An array used as a shape: two non-negative integers, height then width. */
  predicate IsDims(vs: seq<real>) {
    |vs| == 2 && vs[0] >= 0.0 && vs[1] >= 0.0 && vs[0].Floor as real == vs[0] && vs[1].Floor as real == vs[1]
  }

  predicate TakesShape(name: Opcode) {
    name.Zero? || name.One? || name.Constant? || name.RandomUniform?
  }

  /** Every array given where a shape is expected denotes one. */
  predicate WellFormed(c: Circuit) {
    match c
    case Operator(name, ps) => TakesShape(name) && |ps| > 0 && ps[0].Values? ==> IsDims(ps[0].values)
    case Sequence(f, g) => WellFormed(f) && WellFormed(g)
    case Parallel(f, g) => WellFormed(f) && WellFormed(g)
    case _ => true
  }

  /** The shape an operator's first parameter denotes, if it is a shape or an array of dimensions. */
  function ShapeArg(ps: seq<Param>): (r: Option<Shape>)
    requires |ps| > 0 && ps[0].Values? ==> IsDims(ps[0].values)
    ensures r.Some? <==> |ps| > 0 && !ps[0].Num?
    ensures |ps| > 0 && ps[0].ShapeParam? ==> r == Some(ps[0].shape)
  {
    if |ps| == 0 then None
    else match ps[0]
      case ShapeParam(s) => Some(s)
      case Values(vs) => Some(Shape(vs[0].Floor as nat, vs[1].Floor as nat))
      case Num(_) => None
  }

  /* Tracing. */

  /** Every handle in ob names a buffer of st. */
  predicate ObValid(st: RT.EnvState, ob: Ob) {
    match ob
    case Unit => true
    case Mat(m) => RT.HandleValid(st, m)
    case Pair(a, b) => ObValid(st, a) && ObValid(st, b)
  }

  lemma ObValidExtends(st1: RT.EnvState, st2: RT.EnvState, ob: Ob)
    requires RT.Extends(st2, st1) && ObValid(st1, ob)
    ensures ObValid(st2, ob)
  {
    match ob
    case Unit =>
    case Mat(m) => assert st2.shapes[..|st1.shapes|][m.uid] == st2.shapes[m.uid];
    case Pair(a, b) =>
      ObValidExtends(st1, st2, a);
      ObValidExtends(st1, st2, b);
  }

  /** The outcome of tracing: the object produced or the error raised, and the environment's state at that point. */
  datatype Traced = Traced(out: Result<Ob, CircuitError>, st: RT.EnvState)

  predicate TracedValid(t: Traced, st: RT.EnvState) {
    RT.StateValid(t.st) && RT.Extends(t.st, st) && (t.out.Ok? ==> ObValid(t.st, t.out.value))
  }

  lemma TracedValidTransitive(t1: Traced, t2: Traced, st: RT.EnvState)
    requires TracedValid(t1, st) && TracedValid(t2, t1.st)
    ensures TracedValid(t2, st)
  {
    RT.ExtendsTransitive(st, t1.st, t2.st);
  }

  /** Traces a matrix operation: the handle of the new buffer, and the state with op scheduled. */
  function Emitted(st: RT.EnvState, shape: Shape, op: RT.Op): (t: Traced)
    requires RT.StateValid(st) && RT.ReadsBelow(op, |st.shapes|)
    ensures TracedValid(t, st)
    ensures t.out == Ok(Mat(RT.Matrix(shape, |st.shapes|)))
    ensures t.st == RT.EnvState(st.shapes + [shape], st.code + [RT.Instr(|st.shapes|, op)])
  {
    RT.EmitValid(st, shape, op);
    var (st2, m) := RT.Emit(st, shape, op);
    Traced(Ok(Mat(m)), st2)
  }

  /** What one operator does to its input, with the parameter and object checks in the order it makes them. */
  function ApplyOperator(c: Circuit, src: Ob, st: RT.EnvState): (r: Traced)
    requires c.Operator? && WellFormed(c) && RT.StateValid(st) && ObValid(st, src)
    ensures TracedValid(r, st)
  {
    var n := c.name;
    if n.Ui? || n.Ue? || n.Drop? || n.Copy? then ApplyStructural(c, src, st)
    else if TakesShape(n) then ApplyFill(c, src, st)
    else if n.Add? || n.Mul? || n.Point? then ApplyBinary(c, src, st)
    else ApplyUnary(c, src, st)
  }

  /** The operators that only rearrange objects and emit nothing. */
  function ApplyStructural(c: Circuit, src: Ob, st: RT.EnvState): (r: Traced)
    requires c.Operator? && WellFormed(c) && RT.StateValid(st) && ObValid(st, src)
    requires c.name.Ui? || c.name.Ue? || c.name.Drop? || c.name.Copy?
    ensures r.st == st && (r.out.Ok? ==> ObValid(st, r.out.value))
  {
    match c.name
    case Ui => Traced(Ok(Pair(src, Unit)), st)
    case Ue =>
      if !src.Pair? then Traced(Err(NotAPair), st)
      else if !src.snd.Unit? then Traced(Err(ExpectedUnit), st)
      else Traced(Ok(src.fst), st)
    case Drop => if !src.Mat? then Traced(Err(ExpectedMatrix), st) else Traced(Ok(Unit), st)
    case Copy => if !src.Mat? then Traced(Err(ExpectedMatrix), st) else Traced(Ok(Pair(src, src)), st)
  }

  /** The operators that take a shape parameter and a unit input and fill a new matrix. */
  function ApplyFill(c: Circuit, src: Ob, st: RT.EnvState): (r: Traced)
    requires c.Operator? && WellFormed(c) && RT.StateValid(st) && ObValid(st, src)
    requires TakesShape(c.name)
    ensures TracedValid(r, st)
  {
    var ps := c.parameter;
    if !src.Unit? then Traced(Err(ExpectedUnit), st)
    else
      match c.name
      case Zero =>
        if ShapeArg(ps).None? then Traced(Err(ParameterError(c)), st)
        else Emitted(st, ShapeArg(ps).value, RT.Zero)
      case One =>
        if ShapeArg(ps).None? then Traced(Err(ParameterError(c)), st)
        else Emitted(st, ShapeArg(ps).value, RT.One)
      case Constant =>
        if ShapeArg(ps).None? || |ps| < 2 || !ps[1].Values? then Traced(Err(ParameterError(c)), st)
        else Emitted(st, ShapeArg(ps).value, RT.Constant(ps[1].values))
      case RandomUniform =>
        if ShapeArg(ps).None? || |ps| < 3 || !ps[1].Num? || !ps[2].Num? then Traced(Err(ParameterError(c)), st)
        else Emitted(st, ShapeArg(ps).value, RT.RandomUniform(ps[1].num, ps[2].num))
  }

  /** The operators on one matrix; each emits one instruction writing a matrix of the input's shape. */
  function ApplyUnary(c: Circuit, src: Ob, st: RT.EnvState): (r: Traced)
    requires c.Operator? && WellFormed(c) && RT.StateValid(st) && ObValid(st, src)
    requires c.name.Dual? || c.name.Relu? || c.name.Cos? || c.name.Sin? || c.name.Cis? || c.name.Sic? || c.name.Sumk?
    ensures TracedValid(r, st)
  {
    var ps := c.parameter;
    if c.name.Sumk? && (|ps| == 0 || !ps[0].Num?) then Traced(Err(ParameterError(c)), st)
    else if !src.Mat? then Traced(Err(NotAMatrix), st)
    else
      var m := src.matrix;
      match c.name
      case Dual => Emitted(st, m.shape, RT.Dual(m.uid))
      case Relu => Emitted(st, m.shape, RT.Relu(m.uid))
      case Cos => Emitted(st, m.shape, RT.Cos(m.uid))
      case Sin => Emitted(st, m.shape, RT.Sin(m.uid))
      case Cis => Emitted(st, m.shape, RT.Cis(m.uid))
      case Sic => Emitted(st, m.shape, RT.Sic(m.uid))
      case Sumk => Emitted(st, m.shape, RT.Sumk(m.uid, ps[0].num))
  }

  /** The operators on a pair of matrices; each emits one instruction writing a matrix of the first one's shape. */
  function ApplyBinary(c: Circuit, src: Ob, st: RT.EnvState): (r: Traced)
    requires c.Operator? && WellFormed(c) && RT.StateValid(st) && ObValid(st, src)
    requires c.name.Add? || c.name.Mul? || c.name.Point?
    ensures TracedValid(r, st)
  {
    if !src.Pair? then Traced(Err(NotAPair), st)
    else if !src.fst.Mat? || !src.snd.Mat? then Traced(Err(NotAMatrix), st)
    else
      assert ObValid(st, src.fst) && ObValid(st, src.snd);
      var a, b := src.fst.matrix, src.snd.matrix;
      match c.name
      case Add => Emitted(st, a.shape, RT.Add(a.uid, b.uid))
      case Mul => Emitted(st, a.shape, RT.Mul(a.uid, b.uid))
      case Point => Emitted(st, a.shape, RT.Point(a.uid, b.uid))
  }

  /** Tracing a circuit on src, from state st. */
  function Apply(c: Circuit, src: Ob, st: RT.EnvState): (r: Traced)
    requires WellFormed(c) && RT.StateValid(st) && ObValid(st, src)
    ensures TracedValid(r, st)
    decreases c
  {
    match c
    case Id => Traced(Ok(src), st)
    case Braid => if !src.Pair? then Traced(Err(NotAPair), st) else Traced(Ok(Pair(src.snd, src.fst)), st)
    case Operator(_, _) => ApplyOperator(c, src, st)
    case Sequence(f, g) =>
      var inner := Apply(f, src, st);
      if inner.out.Err? then inner
      else
        var r := Apply(g, inner.out.value, inner.st);
        TracedValidTransitive(inner, r, st);
        r
    case Parallel(f, g) =>
      if !src.Pair? then Traced(Err(NotAPair), st)
      else
        var a := Apply(f, src.fst, st);
        if a.out.Err? then a
        else
          ObValidExtends(st, a.st, src.snd);
          var b := Apply(g, src.snd, a.st);
          TracedValidTransitive(a, b, st);
          if b.out.Err? then b
          else
            ObValidExtends(a.st, b.st, a.out.value);
            Traced(Ok(Pair(a.out.value, b.out.value)), b.st)
  }

  /** Continuing a trace with y: an error stops it, an object feeds y. */
  function Then(t: Traced, y: Circuit): (r: Traced)
    requires WellFormed(y) && RT.StateValid(t.st) && (t.out.Ok? ==> ObValid(t.st, t.out.value))
    ensures TracedValid(r, t.st)
  {
    if t.out.Err? then
      assert RT.Extends(t.st, t.st) by { assert t.st.shapes[..|t.st.shapes|] == t.st.shapes; assert t.st.code[..|t.st.code|] == t.st.code; }
      t
    else Apply(y, t.out.value, t.st)
  }

  lemma {:induction false} SeqWellFormed(x: Circuit, y: Circuit)
    requires WellFormed(x) && WellFormed(y)
    ensures WellFormed(Seq(x, y))
    decreases x
  {
    if x.Sequence? && !y.Id? {
      SeqWellFormed(x.snd, y);
      SeqWellFormed(x.fst, Seq(x.snd, y));
    }
  }

  /**
   * seq's simplifications preserve meaning: tracing seq(x, y) is tracing x, then y on
   * its output, whatever identities and nested sequences x holds.
   */
  lemma {:induction false} ApplySeq(x: Circuit, y: Circuit, src: Ob, st: RT.EnvState)
    requires WellFormed(x) && WellFormed(y) && RT.StateValid(st) && ObValid(st, src)
    ensures WellFormed(Seq(x, y))
    ensures Apply(Seq(x, y), src, st) == Then(Apply(x, src, st), y)
    decreases x
  {
    SeqWellFormed(x, y);
    match x
    case Sequence(f, g) =>
      if !y.Id? {
        SeqWellFormed(g, y);
        var a := Apply(f, src, st);
        ApplySeq(f, Seq(g, y), src, st);
        if a.out.Ok? {
          ApplySeq(g, y, a.out.value, a.st);
        }
      }
    case _ =>
  }

  /** Braiding twice gives back the pair, and braiding anything else fails. */
  lemma BraidInvolutive(src: Ob, st: RT.EnvState)
    requires RT.StateValid(st) && ObValid(st, src)
    ensures Apply(Sequence(Braid, Braid), src, st) == Traced(if src.Pair? then Ok(src) else Err(NotAPair), st)
  {
  }

  /** ue undoes ui: pairing with the unit and then eliminating it gives back the input. */
  lemma UiThenUe(ps: seq<Param>, qs: seq<Param>, src: Ob, st: RT.EnvState)
    requires RT.StateValid(st) && ObValid(st, src)
    ensures WellFormed(Sequence(Operator(Ui, ps), Operator(Ue, qs)))
    ensures Apply(Sequence(Operator(Ui, ps), Operator(Ue, qs)), src, st) == Traced(Ok(src), st)
  {
  }

  /**
   * Interchange: running f beside the identity and then the identity beside g traces the same
   * buffers and instructions, in the same order, as running f beside g.
   */
  lemma ParallelInterchange(f: Circuit, g: Circuit, src: Ob, st: RT.EnvState)
    requires WellFormed(f) && WellFormed(g) && RT.StateValid(st) && ObValid(st, src)
    ensures WellFormed(Sequence(Par(f, Id), Par(Id, g))) && WellFormed(Par(f, g))
    ensures Apply(Sequence(Par(f, Id), Par(Id, g)), src, st) == Apply(Par(f, g), src, st)
  {
    assert WellFormed(Par(f, Id)) && WellFormed(Par(Id, g));
    if src.Pair? {
      var a := Apply(f, src.fst, st);
      if a.out.Ok? {
        ObValidExtends(st, a.st, src.snd);
        var left := Apply(Par(f, Id), src, st);
        assert left == Traced(Ok(Pair(a.out.value, src.snd)), a.st);
        var b := Apply(g, src.snd, a.st);
        assert Apply(Par(Id, g), left.out.value, left.st)
          == if b.out.Err? then b else Traced(Ok(Pair(a.out.value, b.out.value)), b.st);
      }
    }
  }

  /** The operators that create a matrix: all but ui, ue, drop and copy. */
  predicate Produces(name: Opcode) {
    !(name.Ui? || name.Ue? || name.Drop? || name.Copy?)
  }

  /**
   * An operator that produces a matrix traces exactly one new buffer and one instruction writing it,
   * and returns that buffer's handle; every other operator, and every failing one, leaves the state alone.
   */
  lemma OperatorTrace(c: Circuit, src: Ob, st: RT.EnvState)
    requires c.Operator? && WellFormed(c) && RT.StateValid(st) && ObValid(st, src)
    ensures var r := Apply(c, src, st);
      if r.out.Ok? && Produces(c.name) then
        && |r.st.shapes| == |st.shapes| + 1 && r.st.shapes[..|st.shapes|] == st.shapes
        && |r.st.code| == |st.code| + 1 && r.st.code[..|st.code|] == st.code
        && r.st.code[|st.code|].dst == |st.shapes|
        && r.out.value == Mat(RT.Matrix(r.st.shapes[|st.shapes|], |st.shapes|))
      else r.st == st
  {
  }

  /* Tracing on an environment. */

  /** Freshly allocated buffers: all zero. */
  function Blanks(shapes: seq<Shape>): (r: seq<K.Buf>)
    ensures |r| == |shapes| && forall i :: 0 <= i < |shapes| ==> r[i] == K.Blank(shapes[i])
  {
    seq(|shapes|, i requires 0 <= i < |shapes| => K.Blank(shapes[i]))
  }

  lemma BlanksGrow(s1: seq<Shape>, s2: seq<Shape>, n: nat)
    requires n <= |s1| <= |s2| && s2[..|s1|] == s1
    ensures Blanks(s1[n..]) + Blanks(s2[|s1|..]) == Blanks(s2[n..])
  {
    assert s2[n..] == s1[n..] + s2[|s1|..];
  }

  /** An arena grown by at most one zero-filled buffer has grown by the blanks of the new shapes. */
  lemma GrowsByAtMostOne(v0: seq<K.Buf>, v1: seq<K.Buf>, shapes: seq<Shape>, n: nat)
    requires n <= |shapes| <= n + 1
    requires if |shapes| == n then v1 == v0 else v1 == v0 + [K.Blank(shapes[n])]
    ensures v1 == v0 + Blanks(shapes[n..])
  {
    if |shapes| == n {
      assert v0 + Blanks(shapes[n..]) == v0;
    }
  }

  /** An arena grown in two steps has grown by the blanks of both steps' shapes. */
  lemma GrowsTwice(v0: seq<K.Buf>, v1: seq<K.Buf>, v2: seq<K.Buf>, s1: seq<Shape>, s2: seq<Shape>, n: nat)
    requires n <= |s1| <= |s2| && s2[..|s1|] == s1
    requires v1 == v0 + Blanks(s1[n..]) && v2 == v1 + Blanks(s2[|s1|..])
    ensures v2 == v0 + Blanks(s2[n..])
  {
    BlanksGrow(s1, s2, n);
    assert v2 == v0 + (Blanks(s1[n..]) + Blanks(s2[|s1|..]));
  }

  /** Traces one operator on env, as ApplyOperator describes. */
  method RunOperator(c: Circuit, src: Ob, env: RT.Env) returns (out: Result<Ob, CircuitError>)
    requires c.Operator? && WellFormed(c) && env.Valid() && ObValid(env.State(), src)
    modifies env
    ensures env.Valid()
    ensures Traced(out, env.State()) == ApplyOperator(c, src, old(env.State()))
    ensures |old(env.data)| <= |env.data|
    ensures env.Values() == old(env.Values()) + Blanks(env.State().shapes[|old(env.data)|..])
    ensures fresh(env.Buffers() - old(env.Buffers()))
  {
    var n := c.name;
    if n.Ui? || n.Ue? || n.Drop? || n.Copy? {
      out := RunStructural(c, src, env);
    } else if TakesShape(n) {
      out := RunFill(c, src, env);
    } else if n.Add? || n.Mul? || n.Point? {
      out := RunBinary(c, src, env);
    } else {
      out := RunUnary(c, src, env);
    }
  }

  /** The operators that only rearrange objects. */
  method RunStructural(c: Circuit, src: Ob, env: RT.Env) returns (out: Result<Ob, CircuitError>)
    requires c.Operator? && WellFormed(c) && env.Valid() && ObValid(env.State(), src)
    requires c.name.Ui? || c.name.Ue? || c.name.Drop? || c.name.Copy?
    modifies env
    ensures env.Valid()
    ensures Traced(out, env.State()) == ApplyStructural(c, src, old(env.State()))
    ensures |old(env.data)| <= |env.data|
    ensures env.Values() == old(env.Values()) + Blanks(env.State().shapes[|old(env.data)|..])
    ensures fresh(env.Buffers() - old(env.Buffers()))
  {
    var ps := c.parameter;
    match c.name {
      case Ui => out := Ok(Pair(src, Unit));
      case Ue =>
        if !src.Pair? {
          out := Err(NotAPair);
        } else if !src.snd.Unit? {
          out := Err(ExpectedUnit);
        } else {
          out := Ok(src.fst);
        }
      case Drop =>
        if !src.Mat? {
          out := Err(ExpectedMatrix);
        } else {
          out := Ok(Unit);
        }
      case Copy =>
        if !src.Mat? {
          out := Err(ExpectedMatrix);
        } else {
          out := Ok(Pair(src, src));
        }
    }
  }

  /** The operators that create a matrix from parameters alone. */
  method RunFill(c: Circuit, src: Ob, env: RT.Env) returns (out: Result<Ob, CircuitError>)
    requires c.Operator? && WellFormed(c) && env.Valid() && ObValid(env.State(), src)
    requires c.name.Zero? || c.name.One? || c.name.Constant? || c.name.RandomUniform?
    modifies env
    ensures env.Valid()
    ensures Traced(out, env.State()) == ApplyFill(c, src, old(env.State()))
    ensures |old(env.data)| <= |env.data|
    ensures env.Values() == old(env.Values()) + Blanks(env.State().shapes[|old(env.data)|..])
    ensures fresh(env.Buffers() - old(env.Buffers()))
  {
    var ps := c.parameter;
    var m: RT.Matrix;
    match c.name {
      case Zero =>
        if !src.Unit? {
          out := Err(ExpectedUnit);
        } else if ShapeArg(ps).None? {
          out := Err(ParameterError(c));
        } else {
          m := env.Zero(ShapeArg(ps).value);
          out := Ok(Mat(m));
        }
      case One =>
        if !src.Unit? {
          out := Err(ExpectedUnit);
        } else if ShapeArg(ps).None? {
          out := Err(ParameterError(c));
        } else {
          m := env.One(ShapeArg(ps).value);
          out := Ok(Mat(m));
        }
      case Constant =>
        if !src.Unit? {
          out := Err(ExpectedUnit);
        } else if ShapeArg(ps).None? || |ps| < 2 || !ps[1].Values? {
          out := Err(ParameterError(c));
        } else {
          m := env.Constant(ShapeArg(ps).value, ps[1].values);
          out := Ok(Mat(m));
        }
      case RandomUniform =>
        if !src.Unit? {
          out := Err(ExpectedUnit);
        } else if ShapeArg(ps).None? || |ps| < 3 || !ps[1].Num? || !ps[2].Num? {
          out := Err(ParameterError(c));
        } else {
          m := env.RandomUniform(ShapeArg(ps).value, ps[1].num, ps[2].num);
          out := Ok(Mat(m));
        }
    }
  }

  /** The operators on one matrix. */
  method RunUnary(c: Circuit, src: Ob, env: RT.Env) returns (out: Result<Ob, CircuitError>)
    requires c.Operator? && WellFormed(c) && env.Valid() && ObValid(env.State(), src)
    requires c.name.Dual? || c.name.Relu? || c.name.Cos? || c.name.Sin? || c.name.Cis? || c.name.Sic? || c.name.Sumk?
    modifies env
    ensures env.Valid()
    ensures Traced(out, env.State()) == ApplyUnary(c, src, old(env.State()))
    ensures |old(env.data)| <= |env.data|
    ensures env.Values() == old(env.Values()) + Blanks(env.State().shapes[|old(env.data)|..])
    ensures fresh(env.Buffers() - old(env.Buffers()))
  {
    var ps := c.parameter;
    if c.name.Sumk? && (|ps| == 0 || !ps[0].Num?) {
      out := Err(ParameterError(c));
    } else if !src.Mat? {
      out := Err(NotAMatrix);
    } else {
      var m: RT.Matrix;
      match c.name {
        case Dual => m := env.Dual(src.matrix);
        case Relu => m := env.Relu(src.matrix);
        case Cos => m := env.Cos(src.matrix);
        case Sin => m := env.Sin(src.matrix);
        case Cis => m := env.Cis(src.matrix);
        case Sic => m := env.Sic(src.matrix);
        case Sumk => m := env.Sumk(src.matrix, ps[0].num);
      }
      out := Ok(Mat(m));
    }
    GrowsByAtMostOne(old(env.Values()), env.Values(), env.State().shapes, |old(env.data)|);
  }

  /** The operators on a pair of matrices. */
  method RunBinary(c: Circuit, src: Ob, env: RT.Env) returns (out: Result<Ob, CircuitError>)
    requires c.Operator? && WellFormed(c) && env.Valid() && ObValid(env.State(), src)
    requires c.name.Add? || c.name.Mul? || c.name.Point?
    modifies env
    ensures env.Valid()
    ensures Traced(out, env.State()) == ApplyBinary(c, src, old(env.State()))
    ensures |old(env.data)| <= |env.data|
    ensures env.Values() == old(env.Values()) + Blanks(env.State().shapes[|old(env.data)|..])
    ensures fresh(env.Buffers() - old(env.Buffers()))
  {
    if !src.Pair? {
      out := Err(NotAPair);
    } else if !src.fst.Mat? || !src.snd.Mat? {
      out := Err(NotAMatrix);
    } else {
      var m: RT.Matrix;
      match c.name {
        case Add => m := env.Add(src.fst.matrix, src.snd.matrix);
        case Mul => m := env.Mul(src.fst.matrix, src.snd.matrix);
        case Point => m := env.Point(src.fst.matrix, src.snd.matrix);
      }
      out := Ok(Mat(m));
    }
    GrowsByAtMostOne(old(env.Values()), env.Values(), env.State().shapes, |old(env.data)|);
  }

  /** apply(): traces c on src, allocating and scheduling on env as Apply describes; buffers are allocated zero-filled. */
  method Run(c: Circuit, src: Ob, env: RT.Env) returns (out: Result<Ob, CircuitError>)
    requires WellFormed(c) && env.Valid() && ObValid(env.State(), src)
    modifies env
    ensures env.Valid()
    ensures Traced(out, env.State()) == Apply(c, src, old(env.State()))
    ensures |old(env.data)| <= |env.data|
    ensures env.Values() == old(env.Values()) + Blanks(env.State().shapes[|old(env.data)|..])
    ensures fresh(env.Buffers() - old(env.Buffers()))
    decreases c, 1
  {
    match c {
      case Id => out := Ok(src);
      case Braid =>
        if !src.Pair? {
          out := Err(NotAPair);
        } else {
          out := Ok(Pair(src.snd, src.fst));
        }
      case Operator(_, _) => out := RunOperator(c, src, env);
      case Sequence(_, _) => out := RunSequence(c, src, env);
      case Parallel(_, _) => out := RunParallel(c, src, env);
    }
  }

  method RunSequence(c: Circuit, src: Ob, env: RT.Env) returns (out: Result<Ob, CircuitError>)
    requires c.Sequence? && WellFormed(c) && env.Valid() && ObValid(env.State(), src)
    modifies env
    ensures env.Valid()
    ensures Traced(out, env.State()) == Apply(c, src, old(env.State()))
    ensures |old(env.data)| <= |env.data|
    ensures env.Values() == old(env.Values()) + Blanks(env.State().shapes[|old(env.data)|..])
    ensures fresh(env.Buffers() - old(env.Buffers()))
    decreases c, 0
  {
    ghost var s0 := env.State();
    var inner := Run(c.fst, src, env);
    if inner.Err? {
      out := inner;
    } else {
      ghost var s1, v1 := env.State(), env.Values();
      out := Run(c.snd, inner.value, env);
      GrowsTwice(old(env.Values()), v1, env.Values(), s1.shapes, env.State().shapes, |s0.shapes|);
    }
  }

  method RunParallel(c: Circuit, src: Ob, env: RT.Env) returns (out: Result<Ob, CircuitError>)
    requires c.Parallel? && WellFormed(c) && env.Valid() && ObValid(env.State(), src)
    modifies env
    ensures env.Valid()
    ensures Traced(out, env.State()) == Apply(c, src, old(env.State()))
    ensures |old(env.data)| <= |env.data|
    ensures env.Values() == old(env.Values()) + Blanks(env.State().shapes[|old(env.data)|..])
    ensures fresh(env.Buffers() - old(env.Buffers()))
    decreases c, 0
  {
    if !src.Pair? {
      out := Err(NotAPair);
      return;
    }
    ghost var s0 := env.State();
    var a := Run(c.fst, src.fst, env);
    if a.Err? {
      out := a;
      return;
    }
    ghost var s1, v1 := env.State(), env.Values();
    ObValidExtends(s0, s1, src.snd);
    var b := Run(c.snd, src.snd, env);
    GrowsTwice(old(env.Values()), v1, env.Values(), s1.shapes, env.State().shapes, |s0.shapes|);
    if b.Err? {
      out := b;
    } else {
      out := Ok(Pair(a.value, b.value));
    }
  }
}
