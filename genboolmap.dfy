/**
 * The boolean-pairing generator of genBoolMap.cpp: two-input boolean
 * functions numbered by their truth tables, and the eight-example set that
 * pairs one function at h=0 with another at h=1.
 */
module BoolMap {
  import opened Data
  import DataLegacy

  /** 1 << n. */
  function Shl1(n: nat): (r: nat)
    ensures r >= 1
  {
    if n == 0 then 1 else 2 * Shl1(n - 1)
  }

  /**
   * boolFunc (genBoolMap.cpp:50-55): bit (a?0:2)+(b?0:1) of f. Dafny's
   * division by a positive number rounds down, so for a negative f this is
   * the bit of its two's complement form, as `&` reads it.
   */
  function BoolFunc(f: int, a: bool, b: bool): bool
  {
    var bit := Shl1((if a then 0 else 2) + (if b then 0 else 1));
    (f / bit) % 2 == 1
  }

  /** Only f's low four bits decide boolFunc: f and f % 16 name the same function. */
  lemma BoolFuncLowFourBits(f: int, a: bool, b: bool)
    ensures BoolFunc(f, a, b) == BoolFunc(f % 16, a, b)
  {
    assert Shl1(3) == 8 && Shl1(2) == 4 && Shl1(1) == 2 && Shl1(0) == 1;
    assert (f % 16) % 16 == f % 16;
    LowFourBitsByDivisor(f);
  }

  /** Bits 0..3 of f are those of f % 16. */
  lemma LowFourBitsByDivisor(f: int)
    ensures f % 2 == (f % 16) % 2
    ensures (f / 2) % 2 == ((f % 16) / 2) % 2
    ensures (f / 4) % 2 == ((f % 16) / 4) % 2
    ensures (f / 8) % 2 == ((f % 16) / 8) % 2
  {
    var e, s := f / 16, f % 16;
    assert f == 16 * e + s && 0 <= s < 16;
    EvenPlus(8 * e, s);
    EvenPlus(4 * e, s / 2);
    EvenPlus(2 * e, s / 4);
    EvenPlus(e, s / 8);
    QuotientOf(f, 2, 8 * e + s / 2, s % 2);
    QuotientOf(f, 4, 4 * e + s / 4, s % 4);
    QuotientOf(f, 8, 2 * e + s / 8, s % 8);
  }

  lemma EvenPlus(k: int, d: int)
    ensures (2 * k + d) % 2 == d % 2
  {
  }

  lemma QuotientOf(f: int, p: int, q: int, t: int)
    requires p == 2 || p == 4 || p == 8
    requires f == p * q + t && 0 <= t < p
    ensures f / p == q
  {
    if p == 2 { } else if p == 4 { } else { }
  }

  /** The index of a truth table given in the order 00, 01, 10, 11, most significant bit first. */
  function TruthTable(t00: bool, t01: bool, t10: bool, t11: bool): (f: int)
    ensures 0 <= f < 16
  {
    (if t00 then 8 else 0) + (if t01 then 4 else 0) + (if t10 then 2 else 0) + (if t11 then 1 else 0)
  }

  /** boolFunc reads the function numbered by a truth table back as that table (genBoolMap.cpp:46-48). */
  lemma {:induction false} BoolFuncReadsTable(t00: bool, t01: bool, t10: bool, t11: bool, a: bool, b: bool)
    ensures BoolFunc(TruthTable(t00, t01, t10, t11), a, b)
         == if !a && !b then t00 else if !a && b then t01 else if a && !b then t10 else t11
  {
    assert Shl1(3) == 8 && Shl1(2) == 4 && Shl1(1) == 2 && Shl1(0) == 1;
  }

  /** Every index 0..15 is the truth table boolFunc reads from it, so no two indices name the same function. */
  lemma {:induction false} IndexIsTable(f: int)
    requires 0 <= f < 16
    ensures f == TruthTable(BoolFunc(f, false, false), BoolFunc(f, false, true), BoolFunc(f, true, false), BoolFunc(f, true, true))
  {
    assert Shl1(3) == 8 && Shl1(2) == 4 && Shl1(1) == 2 && Shl1(0) == 1;
  }

  /** The names of the sixteen functions, by index (genBoolMap.cpp:41-43). */
  const SimpleNames: seq<string> :=
    ["f", "and", "x and !y", "x", "!x and y", "y", "xor", "or", "nor", "xnor",
     "!y", "x or !y", "!x", "!x or y", "nand", "t"]

  /** Every one of the sixteen names computes the function its index gives. */
  lemma {:induction false} NamesMatch(a: bool, b: bool)
    ensures SimpleNames[0] == "f" && !BoolFunc(0, a, b)
    ensures SimpleNames[15] == "t" && BoolFunc(15, a, b)
    ensures SimpleNames[1] == "and" && BoolFunc(1, a, b) == (a && b)
    ensures SimpleNames[6] == "xor" && BoolFunc(6, a, b) == (a != b)
    ensures SimpleNames[7] == "or" && BoolFunc(7, a, b) == (a || b)
    ensures SimpleNames[8] == "nor" && BoolFunc(8, a, b) == !(a || b)
    ensures SimpleNames[9] == "xnor" && BoolFunc(9, a, b) == (a == b)
    ensures SimpleNames[14] == "nand" && BoolFunc(14, a, b) == !(a && b)
    ensures SimpleNames[3] == "x" && BoolFunc(3, a, b) == a
    ensures SimpleNames[5] == "y" && BoolFunc(5, a, b) == b
    ensures SimpleNames[2] == "x and !y" && BoolFunc(2, a, b) == (a && !b)
    ensures SimpleNames[4] == "!x and y" && BoolFunc(4, a, b) == (!a && b)
    ensures SimpleNames[10] == "!y" && BoolFunc(10, a, b) == !b
    ensures SimpleNames[11] == "x or !y" && BoolFunc(11, a, b) == (a || !b)
    ensures SimpleNames[12] == "!x" && BoolFunc(12, a, b) == !a
    ensures SimpleNames[13] == "!x or y" && BoolFunc(13, a, b) == (!a || b)
  {
    BoolFuncReadsTable(false, false, false, false, a, b);
    BoolFuncReadsTable(true, true, true, true, a, b);
    BoolFuncReadsTable(false, false, false, true, a, b);
    BoolFuncReadsTable(false, true, true, false, a, b);
    BoolFuncReadsTable(false, true, true, true, a, b);
    BoolFuncReadsTable(true, false, false, false, a, b);
    BoolFuncReadsTable(true, false, false, true, a, b);
    BoolFuncReadsTable(true, true, true, false, a, b);
    BoolFuncReadsTable(false, false, true, true, a, b);
    BoolFuncReadsTable(false, true, false, true, a, b);
    BoolFuncReadsTable(false, false, true, false, a, b);
    BoolFuncReadsTable(false, true, false, false, a, b);
    BoolFuncReadsTable(true, false, true, false, a, b);
    BoolFuncReadsTable(true, false, true, true, a, b);
    BoolFuncReadsTable(true, true, false, false, a, b);
    BoolFuncReadsTable(true, true, false, true, a, b);
  }

  /** 1.0 for a true boolean function value, 0.0 for false. */
  function Level(v: bool): real
  {
    if v then 1.0 else 0.0
  }

  /**
   * setExample (genBoolMap.cpp:63-73): example i gets modulator mod, inputs
   * 0 and 1 get the two bits and output 0 gets f of them; nothing else in
   * the set changes.
   */
  method SetExample(e: DataLegacy.ExampleSet, i: nat, f: int, xbit: int, ybit: int, mod: real)
    requires e.Valid() && i < e.ct && e.ninputs >= 2 && e.noutputs >= 1
    modifies e.data
    ensures e.Valid()
    ensures e.Rows() == old(e.Rows())[i := Row(old(e.GetInputs(i))[0 := xbit as real][1 := ybit as real],
                                               old(e.GetOutputs(i))[0 := Level(BoolFunc(f, xbit != 0, ybit != 0))], mod)]
  {
    e.SetH(i, mod);
    e.SetInput(i, 0, xbit as real);
    e.SetInput(i, 1, ybit as real);
    var val := BoolFunc(f, xbit != 0, ybit != 0);
    e.SetOutput(i, 0, if val then 1 as real else 0 as real);
  }

  /**
   * Example k of doPairing's set (genBoolMap.cpp:113-125): inputs run
   * (0,0), (0,1), (1,0), (1,1) in pairs; even examples are f1 at h=0 and
   * odd ones f2 at h=1.
   */
  function PairingRow(f1: int, f2: int, k: nat): (r: Row)
    ensures |r.inputs| == 2 && |r.outputs| == 1
  {
    var x, y := k / 4, k / 2 % 2;
    var h := k % 2;
    Row([x as real, y as real], [Level(BoolFunc(if h == 0 then f1 else f2, x != 0, y != 0))], h as real)
  }

  /** The first n examples of rows are doPairing's, and every example has two inputs and one output. */
  ghost predicate PairedUpTo(rows: seq<Row>, f1: int, f2: int, n: nat)
  {
    && n <= |rows|
    && (forall k :: 0 <= k < |rows| ==> |rows[k].inputs| == 2 && |rows[k].outputs| == 1)
    && (forall k :: 0 <= k < n ==> rows[k] == PairingRow(f1, f2, k))
  }

  /** One setExample call of doPairing writes its example's row. */
  lemma PairedStep(before: seq<Row>, after: seq<Row>, f1: int, f2: int, k: nat, f: int, xbit: int, ybit: int, mod: real)
    requires PairedUpTo(before, f1, f2, k) && k < |before|
    requires xbit == k / 4 && ybit == k / 2 % 2 && mod == (k % 2) as real && f == (if k % 2 == 0 then f1 else f2)
    requires after == before[k := Row(before[k].inputs[0 := xbit as real][1 := ybit as real],
                                      before[k].outputs[0 := Level(BoolFunc(f, xbit != 0, ybit != 0))], mod)]
    ensures PairedUpTo(after, f1, f2, k + 1)
  {
    assert after[k].inputs == [xbit as real, ybit as real];
  }

  /** The example set doPairing builds before training (genBoolMap.cpp:113-125). */
  method PairingSet(f1: int, f2: int) returns (e: DataLegacy.ExampleSet)
    ensures fresh(e) && e.Valid() && e.ct == 8 && e.ninputs == 2 && e.noutputs == 1
    ensures forall k :: 0 <= k < 8 ==> e.Rows()[k] == PairingRow(f1, f2, k)
  {
    e := new DataLegacy.ExampleSet(8, 2, 1);
    ghost var r := e.Rows();
    SetExample(e, 0, f1, 0, 0, 0.0);
    PairedStep(r, e.Rows(), f1, f2, 0, f1, 0, 0, 0.0);
    r := e.Rows();
    SetExample(e, 1, f2, 0, 0, 1.0);
    PairedStep(r, e.Rows(), f1, f2, 1, f2, 0, 0, 1.0);
    r := e.Rows();
    SetExample(e, 2, f1, 0, 1, 0.0);
    PairedStep(r, e.Rows(), f1, f2, 2, f1, 0, 1, 0.0);
    r := e.Rows();
    SetExample(e, 3, f2, 0, 1, 1.0);
    PairedStep(r, e.Rows(), f1, f2, 3, f2, 0, 1, 1.0);
    r := e.Rows();
    SetExample(e, 4, f1, 1, 0, 0.0);
    PairedStep(r, e.Rows(), f1, f2, 4, f1, 1, 0, 0.0);
    r := e.Rows();
    SetExample(e, 5, f2, 1, 0, 1.0);
    PairedStep(r, e.Rows(), f1, f2, 5, f2, 1, 0, 1.0);
    r := e.Rows();
    SetExample(e, 6, f1, 1, 1, 0.0);
    PairedStep(r, e.Rows(), f1, f2, 6, f1, 1, 1, 0.0);
    r := e.Rows();
    SetExample(e, 7, f2, 1, 1, 1.0);
    PairedStep(r, e.Rows(), f1, f2, 7, f2, 1, 1, 1.0);
  }

  /** In doPairing's set the h=0 examples compute f1 and the h=1 examples f2, on every input pair. */
  lemma {:induction false} PairingComputesBoth(f1: int, f2: int, a: bool, b: bool)
    ensures exists k :: 0 <= k < 8 && PairingRow(f1, f2, k) == Row([Level(a), Level(b)], [Level(BoolFunc(f1, a, b))], 0.0)
    ensures exists k :: 0 <= k < 8 && PairingRow(f1, f2, k) == Row([Level(a), Level(b)], [Level(BoolFunc(f2, a, b))], 1.0)
  {
    var k := 4 * (if a then 1 else 0) + 2 * (if b then 1 else 0);
    assert PairingRow(f1, f2, k) == Row([Level(a), Level(b)], [Level(BoolFunc(f1, a, b))], 0.0);
    assert PairingRow(f1, f2, k + 1) == Row([Level(a), Level(b)], [Level(BoolFunc(f2, a, b))], 1.0);
  }
}
