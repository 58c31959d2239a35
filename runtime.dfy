/**
 * The staged runtime: an environment that allocates zero-filled buffers, records one
 * instruction per traced operation on a tape, and later executes the tape in order,
 * each instruction overwriting its own destination buffer in place.
 */
module Runtime {
  import opened Wrappers
  import opened Shapes
  import K = Kernels
  import B = Buffers

  /** A handle to a buffer of an environment: its shape and its index in the arena. */
  datatype Matrix = Matrix(shape: Shape, uid: nat)

  /** Which sumk the environment's buffers implement: per row (buffer.ts) or over the flat layout (circuit.ts). */
  datatype SumkRule = PerRow | Flat

  /** A scheduled operation; operands are arena indices. */
  datatype Op =
    | Zero
    | One
    | Constant(values: seq<real>)
    | RandomUniform(min: real, max: real)
    | Dual(src: nat)
    | Relu(src: nat)
    | Cos(src: nat)
    | Sin(src: nat)
    | Cis(src: nat)
    | Sic(src: nat)
    | Sumk(src: nat, k: real)
    | Add(fst: nat, snd: nat)
    | Mul(fst: nat, snd: nat)
    | Point(fst: nat, snd: nat)

  /** One tape entry: the destination buffer and the operation that overwrites it. */
  datatype Instr = Instr(dst: nat, op: Op)

  /** Every buffer op reads has an index below bound. */
  predicate ReadsBelow(op: Op, bound: nat) {
    match op
    case Zero | One | Constant(_) | RandomUniform(_, _) => true
    case Dual(s) => s < bound
    case Relu(s) => s < bound
    case Cos(s) => s < bound
    case Sin(s) => s < bound
    case Cis(s) => s < bound
    case Sic(s) => s < bound
    case Sumk(s, _) => s < bound
    case Add(f, g) => f < bound && g < bound
    case Mul(f, g) => f < bound && g < bound
    case Point(f, g) => f < bound && g < bound
  }

  /** The destination exists, and every operand was allocated before it. */
  predicate InstrValid(inst: Instr, n: nat) {
    inst.dst < n && ReadsBelow(inst.op, inst.dst)
  }

  /** Every instruction of code is valid in an arena of n buffers. */
  predicate CodeFits(code: seq<Instr>, n: nat) {
    forall i :: 0 <= i < |code| ==> InstrValid(code[i], n)
  }

  /** What tracing builds: the shapes of the allocated buffers, in allocation order, and the tape. */
  datatype EnvState = EnvState(shapes: seq<Shape>, code: seq<Instr>)

  predicate StateValid(st: EnvState) {
    CodeFits(st.code, |st.shapes|)
  }

  /** m names a buffer of st, with the shape that buffer was allocated with. */
  predicate HandleValid(st: EnvState, m: Matrix) {
    m.uid < |st.shapes| && st.shapes[m.uid] == m.shape
  }

  /** st2 was reached from st1 by allocating and scheduling only. */
  predicate Extends(st2: EnvState, st1: EnvState) {
    && |st1.shapes| <= |st2.shapes| && st2.shapes[..|st1.shapes|] == st1.shapes
    && |st1.code| <= |st2.code| && st2.code[..|st1.code|] == st1.code
  }

  /**
   * Tracing one operation: allocate a buffer of the given shape, then schedule op with it as
   * destination. The new handle is valid in the new state and names a buffer that no
   * handle of the old state names.
   */
  function Emit(st: EnvState, shape: Shape, op: Op): (r: (EnvState, Matrix))
    ensures HandleValid(r.0, r.1) && r.1.shape == shape && r.1.uid >= |st.shapes|
  {
    var uid := |st.shapes|;
    (EnvState(st.shapes + [shape], st.code + [Instr(uid, op)]), Matrix(shape, uid))
  }

  /**
   * Emitting keeps the state valid when the operands are handles of it; the new handle names
   * the new last buffer, the tape grows by exactly the new instruction, and old handles stay valid.
   */
  lemma EmitValid(st: EnvState, shape: Shape, op: Op)
    requires StateValid(st) && ReadsBelow(op, |st.shapes|)
    ensures var (st2, m) := Emit(st, shape, op);
      && StateValid(st2) && Extends(st2, st) && HandleValid(st2, m)
      && |st2.shapes| == |st.shapes| + 1 && |st2.code| == |st.code| + 1
      && st2.code[|st.code|] == Instr(m.uid, op)
      && forall h :: HandleValid(st, h) ==> HandleValid(st2, h)
  {
    var (st2, m) := Emit(st, shape, op);
    assert st2.shapes[..|st.shapes|] == st.shapes;
    assert st2.code[..|st.code|] == st.code;
  }

  lemma ExtendsTransitive(st1: EnvState, st2: EnvState, st3: EnvState)
    requires Extends(st2, st1) && Extends(st3, st2)
    ensures Extends(st3, st1)
  {
    assert st3.shapes[..|st1.shapes|] == st3.shapes[..|st2.shapes|][..|st1.shapes|];
    assert st3.code[..|st1.code|] == st3.code[..|st2.code|][..|st1.code|];
  }

  /* Execution, on buffer values. */

  predicate DataValid(data: seq<K.Buf>) {
    forall i :: 0 <= i < |data| ==> data[i].Valid()
  }

  /** Two arenas with the same number of buffers, of the same shapes. */
  predicate SameShapes(a: seq<K.Buf>, b: seq<K.Buf>) {
    |a| == |b| && forall i :: 0 <= i < |a| ==> a[i].shape == b[i].shape
  }

  /** The arena after a run, and the error that stopped it, if any. */
  datatype Exec = Exec(data: seq<K.Buf>, err: Option<K.KernelError>)

  /** Stores a kernel's result in buffer dst, or keeps the arena and reports its error. */
  function Store(data: seq<K.Buf>, dst: nat, r: Result<K.Buf, K.KernelError>): (e: Exec)
    requires dst < |data|
    ensures e.err.None? <==> r.Ok?
    ensures e.err.Some? ==> e.err.value == r.error && e.data == data
    ensures r.Ok? ==> e.data == data[dst := r.value]
  {
    if r.Ok? then Exec(data[dst := r.value], None) else Exec(data, Some(r.error))
  }

  /**
   * The kernel an instruction runs, applied to the current contents of its destination and
   * operands: the destination's new contents, or the error the kernel raises. draws supplies
   * the random numbers a randomUniform instruction consumes, one per element.
   */
  function Kernel(data: seq<K.Buf>, inst: Instr, rule: SumkRule, trig: K.Trig, draws: nat -> real): (r: Result<K.Buf, K.KernelError>)
    requires DataValid(data) && InstrValid(inst, |data|)
    ensures K.Writes(data[inst.dst], r)
  {
    var d := data[inst.dst];
    match inst.op
    case Zero => Ok(K.Fill(d, 0.0))
    case One => Ok(K.Fill(d, 1.0))
    case Constant(values) =>
      if |values| > d.shape.Capacity() then Err(K.RangeError) else Ok(K.SetValues(d, values))
    case RandomUniform(min, max) => Ok(K.RandomUniform(d, min, max, draws))
    case Dual(s) => K.Dual(d, data[s])
    case Relu(s) => K.Relu(d, data[s])
    case Cos(s) => K.Cos(trig, d, data[s])
    case Sin(s) => K.Sin(trig, d, data[s])
    case Cis(s) => K.Cis(trig, d, data[s])
    case Sic(s) => K.Sic(trig, d, data[s])
    case Sumk(s, k) => if rule == PerRow then K.SumkRows(d, data[s], k) else K.SumkFlat(d, data[s], k)
    case Add(f, g) => K.Add(d, data[f], data[g])
    case Mul(f, g) => K.Mul(d, data[f], data[g])
    case Point(f, g) => K.Point(d, data[f], data[g])
  }

  /** Executing one instruction: its kernel's result overwrites its destination, and nothing else changes. */
  function Step(data: seq<K.Buf>, inst: Instr, rule: SumkRule, trig: K.Trig, draws: nat -> real): (r: Exec)
    requires DataValid(data) && InstrValid(inst, |data|)
    ensures DataValid(r.data) && SameShapes(r.data, data)
    ensures forall i :: 0 <= i < |data| && i != inst.dst ==> r.data[i] == data[i]
  {
    Store(data, inst.dst, Kernel(data, inst, rule, trig, draws))
  }

  /**
   * Executing a tape: the instructions in order, stopping at the first one whose kernel raises.
   * random(p) is the stream of random numbers seen by the instruction at tape position p.
   */
  function Replay(data: seq<K.Buf>, code: seq<Instr>, rule: SumkRule, trig: K.Trig, random: nat -> nat -> real): (r: Exec)
    requires DataValid(data) && CodeFits(code, |data|)
    ensures DataValid(r.data) && SameShapes(r.data, data)
    decreases |code|
  {
    if code == [] then Exec(data, None)
    else
      var n := |code| - 1;
      var prev := Replay(data, code[..n], rule, trig, random);
      if prev.err.Some? then prev else Step(prev.data, code[n], rule, trig, random(n))
  }

  /** Replaying one more instruction after a prefix that ran cleanly is one more step. */
  lemma ReplayOneMore(data: seq<K.Buf>, code: seq<Instr>, i: nat, rule: SumkRule, trig: K.Trig, random: nat -> nat -> real)
    requires DataValid(data) && CodeFits(code, |data|) && i < |code|
    requires Replay(data, code[..i], rule, trig, random).err == None
    ensures Replay(data, code[..i + 1], rule, trig, random)
      == Step(Replay(data, code[..i], rule, trig, random).data, code[i], rule, trig, random(i))
  {
    assert code[..i + 1][..i] == code[..i];
  }

  /** Once an instruction has raised, the rest of the tape has no effect. */
  lemma {:induction false} ReplayStopsAtError(data: seq<K.Buf>, code: seq<Instr>, n: nat, rule: SumkRule, trig: K.Trig, random: nat -> nat -> real)
    requires DataValid(data) && CodeFits(code, |data|) && n <= |code|
    requires Replay(data, code[..n], rule, trig, random).err.Some?
    ensures Replay(data, code, rule, trig, random) == Replay(data, code[..n], rule, trig, random)
    decreases |code|
  {
    if n == |code| {
      assert code[..n] == code;
    } else {
      var prefix := code[..|code| - 1];
      assert prefix[..n] == code[..n];
      ReplayStopsAtError(data, prefix, n, rule, trig, random);
    }
  }

  /** Only destinations are written: a buffer that no instruction of the tape writes keeps its contents. */
  lemma {:induction false} ReplayKeepsUnwritten(data: seq<K.Buf>, code: seq<Instr>, i: nat, rule: SumkRule, trig: K.Trig, random: nat -> nat -> real)
    requires DataValid(data) && CodeFits(code, |data|) && i < |data|
    requires forall p :: 0 <= p < |code| ==> code[p].dst != i
    ensures Replay(data, code, rule, trig, random).data[i] == data[i]
    decreases |code|
  {
    if code != [] {
      ReplayKeepsUnwritten(data, code[..|code| - 1], i, rule, trig, random);
    }
  }

  /**
   * The first execution of a traced mul: its destination was allocated zero-filled and no
   * earlier instruction writes it, so once the instructions before it have run, the mul
   * leaves exactly the product of its operands' current contents there.
   */
  lemma ReplayMulFromBlank(data: seq<K.Buf>, prefix: seq<Instr>, d: nat, f: nat, g: nat,
                           rule: SumkRule, trig: K.Trig, random: nat -> nat -> real)
    requires DataValid(data) && CodeFits(prefix, |data|) && InstrValid(Instr(d, Mul(f, g)), |data|)
    requires forall i :: 0 <= i < |data[d].elems| ==> data[d].elems[i] == 0.0
    requires forall p :: 0 <= p < |prefix| ==> prefix[p].dst != d
    requires K.MulShapes(data[d].shape, data[f].shape, data[g].shape)
    requires Replay(data, prefix, rule, trig, random).err == None
    ensures var before := Replay(data, prefix, rule, trig, random);
      var after := Replay(data, prefix + [Instr(d, Mul(f, g))], rule, trig, random);
      && after.err == None
      && after.data[d] == K.Product(before.data[f], before.data[g])
      && forall i :: 0 <= i < |data| && i != d ==> after.data[i] == before.data[i]
  {
    var code := prefix + [Instr(d, Mul(f, g))];
    assert code[..|code| - 1] == prefix;
    var before := Replay(data, prefix, rule, trig, random);
    ReplayKeepsUnwritten(data, prefix, d, rule, trig, random);
    K.MulFromZero(before.data[d], before.data[f], before.data[g]);
    assert Kernel(before.data, Instr(d, Mul(f, g)), rule, trig, random(|prefix|))
      == Ok(K.Product(before.data[f], before.data[g]));
    assert Replay(data, code, rule, trig, random) == Step(before.data, Instr(d, Mul(f, g)), rule, trig, random(|prefix|));
  }

  /**
   * Executing the same tape again without re-tracing: when the instructions before the mul
   * recompute its operands to the same contents, the mul adds the product a second time, so
   * its destination then holds twice the product.
   */
  lemma ReplayMulTwice(data: seq<K.Buf>, prefix: seq<Instr>, d: nat, f: nat, g: nat,
                       rule: SumkRule, trig: K.Trig, random: nat -> nat -> real)
    requires DataValid(data) && CodeFits(prefix, |data|) && InstrValid(Instr(d, Mul(f, g)), |data|)
    requires forall i :: 0 <= i < |data[d].elems| ==> data[d].elems[i] == 0.0
    requires forall p :: 0 <= p < |prefix| ==> prefix[p].dst != d
    requires K.MulShapes(data[d].shape, data[f].shape, data[g].shape)
    requires Replay(data, prefix, rule, trig, random).err == None
    requires var before := Replay(data, prefix, rule, trig, random);
      var once := Replay(data, prefix + [Instr(d, Mul(f, g))], rule, trig, random);
      var again := Replay(once.data, prefix, rule, trig, random);
      again.err == None && again.data[f] == before.data[f] && again.data[g] == before.data[g]
    ensures var before := Replay(data, prefix, rule, trig, random);
      var once := Replay(data, prefix + [Instr(d, Mul(f, g))], rule, trig, random);
      var twice := Replay(once.data, prefix + [Instr(d, Mul(f, g))], rule, trig, random);
      var p := K.Product(before.data[f], before.data[g]);
      && twice.err == None && twice.data[d].shape == p.shape
      && forall i :: 0 <= i < |p.elems| ==> twice.data[d].elems[i] == 2.0 * p.elems[i]
  {
    var code := prefix + [Instr(d, Mul(f, g))];
    assert code[..|code| - 1] == prefix;
    var before := Replay(data, prefix, rule, trig, random);
    ReplayMulFromBlank(data, prefix, d, f, g, rule, trig, random);
    var once := Replay(data, code, rule, trig, random);
    ReplayKeepsUnwritten(once.data, prefix, d, rule, trig, random);
  }

  /** A constant with more values than its buffer holds makes execution raise a RangeError. */
  lemma ConstantTooLong(data: seq<K.Buf>, dst: nat, values: seq<real>, rule: SumkRule, trig: K.Trig, draws: nat -> real)
    requires DataValid(data) && dst < |data| && |values| > data[dst].shape.Capacity()
    ensures Step(data, Instr(dst, Constant(values)), rule, trig, draws) == Exec(data, Some(K.RangeError))
  {
  }

  /**
   * The traced dual allocates its destination with the source's own shape, so its kernel
   * passes the shape check exactly when the source is square.
   */
  lemma DualTracePasses(dst: K.Buf, src: K.Buf)
    requires dst.Valid() && src.Valid() && dst.shape == src.shape
    ensures K.Dual(dst, src).Ok? <==> src.shape.height == src.shape.width
  {
  }

  /**
   * The traced mul allocates its destination with fst's shape, so its kernel passes the shape
   * check exactly when snd is a square matrix of side fst.width.
   */
  lemma MulTracePasses(dst: K.Buf, fst: K.Buf, snd: K.Buf)
    requires dst.Valid() && fst.Valid() && snd.Valid() && dst.shape == fst.shape
    ensures K.Mul(dst, fst, snd).Ok? <==> snd.shape.height == fst.shape.width && snd.shape.width == fst.shape.width
  {
  }

  /** The environment: an arena of buffers, addressed by handle uid, and the tape of scheduled instructions. */
  class Env {
    var data: seq<B.MatrixBuffer>
    var code: seq<Instr>
    const rule: SumkRule

    /** The arrays of the arena's buffers: what execution may write. */
    function Buffers(): set<array<real>>
      reads this
    {
      set i | 0 <= i < |data| :: data[i].buffer
    }

    /** Every buffer sized for its shape, no two buffers sharing an array, and every instruction in range. */
    predicate Valid()
      reads this
    {
      && (forall i :: 0 <= i < |data| ==> data[i].Valid())
      && (forall i, j :: 0 <= i < j < |data| ==> data[i].buffer != data[j].buffer)
      && CodeFits(code, |data|)
    }

    /** What tracing has built so far. */
    function State(): EnvState
      reads this
    {
      EnvState(seq(|data|, i requires 0 <= i < |data| reads this => data[i].shape), code)
    }

    /** The current contents of the arena. */
    function Values(): (r: seq<K.Buf>)
      reads this, Buffers()
      ensures |r| == |data|
    {
      seq(|data|, i requires 0 <= i < |data| reads this, Buffers() => data[i].Value())
    }

    constructor (rule: SumkRule)
      ensures Valid() && State() == EnvState([], []) && this.rule == rule
    {
      data := [];
      code := [];
      this.rule := rule;
    }

    /** Adds a zero-filled buffer of the given shape to the arena and returns its handle. */
    method Allocate(shape: Shape) returns (m: Matrix)
      requires Valid()
      modifies this
      ensures Valid() && code == old(code) && |data| == |old(data)| + 1
      ensures m == Matrix(shape, |old(data)|)
      ensures State() == EnvState(old(State()).shapes + [shape], code)
      ensures Values() == old(Values()) + [K.Blank(shape)]
      ensures fresh(data[m.uid].buffer) && Buffers() == old(Buffers()) + {data[m.uid].buffer}
    {
      var buf := new B.MatrixBuffer(shape, None);
      m := Matrix(shape, |data|);
      data := data + [buf];
      assert Values()[..m.uid] == old(Values());
      forall x | x in Buffers()
        ensures x in old(Buffers()) + {buf.buffer}
      {
        var i :| 0 <= i < |data| && data[i].buffer == x;
        if i < m.uid {
          assert old(data)[i] == data[i];
        }
      }
      forall x | x in old(Buffers())
        ensures x in Buffers()
      {
        var i :| 0 <= i < |old(data)| && old(data)[i].buffer == x;
        assert data[i] == old(data)[i];
      }
    }

    /** Appends an instruction to the tape. */
    method Schedule(inst: Instr)
      requires Valid() && InstrValid(inst, |data|)
      modifies this
      ensures Valid() && data == old(data) && code == old(code) + [inst]
      ensures Values() == old(Values()) && Buffers() == old(Buffers())
    {
      code := code + [inst];
    }

    /** The buffer a handle names. */
    method Load(pointer: Matrix) returns (b: B.MatrixBuffer)
      requires Valid() && HandleValid(State(), pointer)
      ensures b == data[pointer.uid] && b.shape == pointer.shape && b.Valid()
    {
      b := data[pointer.uid];
    }
  
    /** Tracing one operation: allocates its destination and schedules op to write it. */
    method Trace(shape: Shape, op: Op) returns (dst: Matrix)
      requires Valid() && ReadsBelow(op, |data|)
      modifies this
      ensures Valid() && (State(), dst) == Emit(old(State()), shape, op)
      ensures Values() == old(Values()) + [K.Blank(shape)]
      ensures fresh(data[dst.uid].buffer) && Buffers() == old(Buffers()) + {data[dst.uid].buffer}
    {
      dst := Allocate(shape);
      Schedule(Instr(dst.uid, op));
      assert State().shapes == old(State()).shapes + [shape];
    }

    /** zero(): a buffer of the given shape that execution fills with 0. */
    method Zero(shape: Shape) returns (dst: Matrix)
      requires Valid()
      modifies this
      ensures Valid() && (State(), dst) == Emit(old(State()), shape, Op.Zero)
      ensures Values() == old(Values()) + [K.Blank(shape)]
      ensures fresh(data[dst.uid].buffer) && Buffers() == old(Buffers()) + {data[dst.uid].buffer}
    {
      dst := Trace(shape, Op.Zero);
    }

    /** one(): a buffer of the given shape that execution fills with 1. */
    method One(shape: Shape) returns (dst: Matrix)
      requires Valid()
      modifies this
      ensures Valid() && (State(), dst) == Emit(old(State()), shape, Op.One)
      ensures Values() == old(Values()) + [K.Blank(shape)]
      ensures fresh(data[dst.uid].buffer) && Buffers() == old(Buffers()) + {data[dst.uid].buffer}
    {
      dst := Trace(shape, Op.One);
    }

    /** constant(): a buffer of the given shape that execution loads with values. */
    method Constant(shape: Shape, values: seq<real>) returns (dst: Matrix)
      requires Valid()
      modifies this
      ensures Valid() && (State(), dst) == Emit(old(State()), shape, Op.Constant(values))
      ensures Values() == old(Values()) + [K.Blank(shape)]
      ensures fresh(data[dst.uid].buffer) && Buffers() == old(Buffers()) + {data[dst.uid].buffer}
    {
      dst := Trace(shape, Op.Constant(values));
    }

    /** randomUniform(): a buffer of the given shape that execution fills with uniform draws from [min, max). */
    method RandomUniform(shape: Shape, min: real, max: real) returns (dst: Matrix)
      requires Valid()
      modifies this
      ensures Valid() && (State(), dst) == Emit(old(State()), shape, Op.RandomUniform(min, max))
      ensures Values() == old(Values()) + [K.Blank(shape)]
      ensures fresh(data[dst.uid].buffer) && Buffers() == old(Buffers()) + {data[dst.uid].buffer}
    {
      dst := Trace(shape, Op.RandomUniform(min, max));
    }

    /** dual(): a buffer allocated with the shape of src (not its transpose), that execution fills with the transpose of src. */
    method Dual(src: Matrix) returns (dst: Matrix)
      requires Valid() && HandleValid(State(), src)
      modifies this
      ensures Valid() && (State(), dst) == Emit(old(State()), src.shape, Op.Dual(src.uid))
      ensures Values() == old(Values()) + [K.Blank(src.shape)]
      ensures fresh(data[dst.uid].buffer) && Buffers() == old(Buffers()) + {data[dst.uid].buffer}
    {
      dst := Trace(src.shape, Op.Dual(src.uid));
    }

    method Relu(src: Matrix) returns (dst: Matrix)
      requires Valid() && HandleValid(State(), src)
      modifies this
      ensures Valid() && (State(), dst) == Emit(old(State()), src.shape, Op.Relu(src.uid))
      ensures Values() == old(Values()) + [K.Blank(src.shape)]
      ensures fresh(data[dst.uid].buffer) && Buffers() == old(Buffers()) + {data[dst.uid].buffer}
    {
      dst := Trace(src.shape, Op.Relu(src.uid));
    }

    method Cos(src: Matrix) returns (dst: Matrix)
      requires Valid() && HandleValid(State(), src)
      modifies this
      ensures Valid() && (State(), dst) == Emit(old(State()), src.shape, Op.Cos(src.uid))
      ensures Values() == old(Values()) + [K.Blank(src.shape)]
      ensures fresh(data[dst.uid].buffer) && Buffers() == old(Buffers()) + {data[dst.uid].buffer}
    {
      dst := Trace(src.shape, Op.Cos(src.uid));
    }

    method Sin(src: Matrix) returns (dst: Matrix)
      requires Valid() && HandleValid(State(), src)
      modifies this
      ensures Valid() && (State(), dst) == Emit(old(State()), src.shape, Op.Sin(src.uid))
      ensures Values() == old(Values()) + [K.Blank(src.shape)]
      ensures fresh(data[dst.uid].buffer) && Buffers() == old(Buffers()) + {data[dst.uid].buffer}
    {
      dst := Trace(src.shape, Op.Sin(src.uid));
    }

    method Cis(src: Matrix) returns (dst: Matrix)
      requires Valid() && HandleValid(State(), src)
      modifies this
      ensures Valid() && (State(), dst) == Emit(old(State()), src.shape, Op.Cis(src.uid))
      ensures Values() == old(Values()) + [K.Blank(src.shape)]
      ensures fresh(data[dst.uid].buffer) && Buffers() == old(Buffers()) + {data[dst.uid].buffer}
    {
      dst := Trace(src.shape, Op.Cis(src.uid));
    }

    method Sic(src: Matrix) returns (dst: Matrix)
      requires Valid() && HandleValid(State(), src)
      modifies this
      ensures Valid() && (State(), dst) == Emit(old(State()), src.shape, Op.Sic(src.uid))
      ensures Values() == old(Values()) + [K.Blank(src.shape)]
      ensures fresh(data[dst.uid].buffer) && Buffers() == old(Buffers()) + {data[dst.uid].buffer}
    {
      dst := Trace(src.shape, Op.Sic(src.uid));
    }

    method Sumk(src: Matrix, k: real) returns (dst: Matrix)
      requires Valid() && HandleValid(State(), src)
      modifies this
      ensures Valid() && (State(), dst) == Emit(old(State()), src.shape, Op.Sumk(src.uid, k))
      ensures Values() == old(Values()) + [K.Blank(src.shape)]
      ensures fresh(data[dst.uid].buffer) && Buffers() == old(Buffers()) + {data[dst.uid].buffer}
    {
      dst := Trace(src.shape, Op.Sumk(src.uid, k));
    }

    method Add(fst: Matrix, snd: Matrix) returns (dst: Matrix)
      requires Valid() && HandleValid(State(), fst) && HandleValid(State(), snd)
      modifies this
      ensures Valid() && (State(), dst) == Emit(old(State()), fst.shape, Op.Add(fst.uid, snd.uid))
      ensures Values() == old(Values()) + [K.Blank(fst.shape)]
      ensures fresh(data[dst.uid].buffer) && Buffers() == old(Buffers()) + {data[dst.uid].buffer}
    {
      dst := Trace(fst.shape, Op.Add(fst.uid, snd.uid));
    }

    /** mul(): a buffer allocated with the shape of fst (not fst.height by snd.width), that execution fills with the product. */
    method Mul(fst: Matrix, snd: Matrix) returns (dst: Matrix)
      requires Valid() && HandleValid(State(), fst) && HandleValid(State(), snd)
      modifies this
      ensures Valid() && (State(), dst) == Emit(old(State()), fst.shape, Op.Mul(fst.uid, snd.uid))
      ensures Values() == old(Values()) + [K.Blank(fst.shape)]
      ensures fresh(data[dst.uid].buffer) && Buffers() == old(Buffers()) + {data[dst.uid].buffer}
    {
      dst := Trace(fst.shape, Op.Mul(fst.uid, snd.uid));
    }

    method Point(fst: Matrix, snd: Matrix) returns (dst: Matrix)
      requires Valid() && HandleValid(State(), fst) && HandleValid(State(), snd)
      modifies this
      ensures Valid() && (State(), dst) == Emit(old(State()), fst.shape, Op.Point(fst.uid, snd.uid))
      ensures Values() == old(Values()) + [K.Blank(fst.shape)]
      ensures fresh(data[dst.uid].buffer) && Buffers() == old(Buffers()) + {data[dst.uid].buffer}
    {
      dst := Trace(fst.shape, Op.Point(fst.uid, snd.uid));
    }

    /** Executes one instruction: the kernel named by its opcode, on its destination's buffer. */
    method Perform(inst: Instr, trig: K.Trig, draws: nat -> real) returns (err: Option<K.KernelError>)
      requires Valid() && InstrValid(inst, |data|)
      modifies data[inst.dst].buffer
      ensures Exec(Values(), err) == Step(old(Values()), inst, rule, trig, draws)
    {
      if inst.op.Zero? || inst.op.One? || inst.op.Constant? || inst.op.RandomUniform? {
        err := PerformFill(inst, trig, draws);
      } else if inst.op.Add? || inst.op.Mul? || inst.op.Point? {
        err := PerformBinary(inst, trig, draws);
      } else {
        err := PerformUnary(inst, trig, draws);
      }
    }

    /** The instructions that read no other buffer. */
    method PerformFill(inst: Instr, trig: K.Trig, draws: nat -> real) returns (err: Option<K.KernelError>)
      requires Valid() && InstrValid(inst, |data|) && (inst.op.Zero? || inst.op.One? || inst.op.Constant? || inst.op.RandomUniform?)
      modifies data[inst.dst].buffer
      ensures Exec(Values(), err) == Step(old(Values()), inst, rule, trig, draws)
    {
      var dst := data[inst.dst];
      match inst.op {
        case Zero =>
          dst.Zero();
          err := None;
        case One =>
          dst.One();
          err := None;
        case Constant(values) =>
          if |values| > dst.buffer.Length {
            err := Some(K.RangeError);
          } else {
            dst.Set(values);
            err := None;
          }
        case RandomUniform(min, max) =>
          dst.RandomUniform(min, max, draws);
          err := None;
      }
      forall i | 0 <= i < |data| && i != inst.dst
        ensures Values()[i] == old(Values())[i]
      {
        assert data[i].buffer != dst.buffer;
      }
      assert Values() == old(Values())[inst.dst := dst.Value()];
    }

    /** The instructions that read one source buffer. */
    method PerformUnary(inst: Instr, trig: K.Trig, draws: nat -> real) returns (err: Option<K.KernelError>)
      requires Valid() && InstrValid(inst, |data|) && (inst.op.Dual? || inst.op.Relu? || inst.op.Cos? || inst.op.Sin? || inst.op.Cis? || inst.op.Sic? || inst.op.Sumk?)
      modifies data[inst.dst].buffer
      ensures Exec(Values(), err) == Step(old(Values()), inst, rule, trig, draws)
    {
      var dst := data[inst.dst];
      var src := data[inst.op.src];
      match inst.op {
        case Dual(_) => err := dst.Dual(src);
        case Relu(_) => err := dst.Relu(src);
        case Cos(_) => err := dst.Cos(trig, src);
        case Sin(_) => err := dst.Sin(trig, src);
        case Cis(_) => err := dst.Cis(trig, src);
        case Sic(_) => err := dst.Sic(trig, src);
        case Sumk(_, k) =>
          if rule == PerRow {
            err := dst.Sumk(src, k);
          } else {
            err := dst.SumkFlat(src, k);
          }
      }
      forall i | 0 <= i < |data| && i != inst.dst
        ensures Values()[i] == old(Values())[i]
      {
        assert data[i].buffer != dst.buffer;
      }
      assert Values() == old(Values())[inst.dst := dst.Value()];
    }

    /** The instructions that read two operand buffers. */
    method PerformBinary(inst: Instr, trig: K.Trig, draws: nat -> real) returns (err: Option<K.KernelError>)
      requires Valid() && InstrValid(inst, |data|) && (inst.op.Add? || inst.op.Mul? || inst.op.Point?)
      modifies data[inst.dst].buffer
      ensures Exec(Values(), err) == Step(old(Values()), inst, rule, trig, draws)
    {
      var dst := data[inst.dst];
      var fst, snd := data[inst.op.fst], data[inst.op.snd];
      match inst.op {
        case Add(_, _) => err := dst.Add(fst, snd);
        case Mul(_, _) => err := dst.Mul(fst, snd);
        case Point(_, _) => err := dst.Point(fst, snd);
      }
      forall i | 0 <= i < |data| && i != inst.dst
        ensures Values()[i] == old(Values())[i]
      {
        assert data[i].buffer != dst.buffer;
      }
      assert Values() == old(Values())[inst.dst := dst.Value()];
    }

    /**
     * execute(): runs the tape in order over the current contents of the arena; the first
     * kernel that raises stops the run, and its error is returned.
     */
    method Execute(trig: K.Trig, random: nat -> nat -> real) returns (err: Option<K.KernelError>)
      requires Valid()
      modifies Buffers()
      ensures Exec(Values(), err) == Replay(old(Values()), code, rule, trig, random)
    {
      var i := 0;
      while i < |code|
        invariant 0 <= i <= |code|
        invariant Exec(Values(), None) == Replay(old(Values()), code[..i], rule, trig, random)
      {
        ReplayOneMore(old(Values()), code, i, rule, trig, random);
        err := Perform(code[i], trig, random(i));
        if err.Some? {
          ReplayStopsAtError(old(Values()), code, i + 1, rule, trig, random);
          return;
        }
        i := i + 1;
      }
      assert code[..i] == code;
      err := None;
    }
  }
}
