/**
 * Truth tables of the gates: the input enumeration of `display_truth_table`
 * (outer loop over A, inner loop over B, each over `[0, 1]`) and the rows it
 * produces. Printing is not modelled; a table is the sequence of its rows.
 */
module TruthTable {
  import opened BooleanGates

  /** The values each loop variable runs over, in order. */
  const Bits: seq<Bit> := [0, 1]

  /** The pairs `(x, y)` for `y` in `ys`, with `x` fixed: one pass of the inner loop. */
  function PairWith<A, B>(x: A, ys: seq<B>): (ps: seq<(A, B)>)
    ensures |ps| == |ys|
    ensures forall j :: 0 <= j < |ys| ==> ps[j] == (x, ys[j])
  {
    seq(|ys|, j requires 0 <= j < |ys| => (x, ys[j]))
  }

  /** The pairs visited by a nested loop, `xs` outer and `ys` inner. */
  function RowMajor<A, B>(xs: seq<A>, ys: seq<B>): (ps: seq<(A, B)>)
    ensures |ps| == |xs| * |ys|
  {
    if xs == [] then []
    else
      var rest := RowMajor(xs[1..], ys);
      assert |xs| * |ys| == |ys| + (|xs| - 1) * |ys|;
      PairWith(xs[0], ys) + rest
  }

  /** The nested loop reaches `(xs[i], ys[j])` as its `i * |ys| + j`-th pair. */
  lemma {:induction false} RowMajorAt<A, B>(xs: seq<A>, ys: seq<B>, i: nat, j: nat)
    requires i < |xs| && j < |ys|
    ensures i * |ys| + j < |RowMajor(xs, ys)|
    ensures RowMajor(xs, ys)[i * |ys| + j] == (xs[i], ys[j])
  {
    if i > 0 {
      RowMajorAt(xs[1..], ys, i - 1, j);
      assert i * |ys| + j == |ys| + ((i - 1) * |ys| + j);
    }
  }

  /** Every pair drawn from the two ranges is visited, and nothing else. */
  lemma {:induction false} RowMajorVisitsAll<A, B>(xs: seq<A>, ys: seq<B>, p: (A, B))
    ensures p in RowMajor(xs, ys) <==> p.0 in xs && p.1 in ys
  {
    if xs != [] {
      RowMajorVisitsAll(xs[1..], ys, p);
      assert xs == [xs[0]] + xs[1..];
      var first := PairWith(xs[0], ys);
      assert p in first <==> p.0 == xs[0] && p.1 in ys;
    }
  }

  /** The input pairs of a two-input table. */
  function TwoInputInputs(): (ps: seq<(Bit, Bit)>)
    ensures |ps| == 4
  {
    RowMajor(Bits, Bits)
  }

  /** The two-input table visits (0,0), (0,1), (1,0), (1,1), in that order. */
  lemma TwoInputOrder()
    ensures TwoInputInputs() == [(0, 0), (0, 1), (1, 0), (1, 1)]
  {
    RowMajorAt(Bits, Bits, 0, 0);
    RowMajorAt(Bits, Bits, 0, 1);
    RowMajorAt(Bits, Bits, 1, 0);
    RowMajorAt(Bits, Bits, 1, 1);
  }

  /** Each combination of two bits occurs in a two-input table. */
  lemma TwoInputComplete(a: Bit, b: Bit)
    ensures (a, b) in TwoInputInputs()
  {
    RowMajorVisitsAll(Bits, Bits, (a, b));
  }

  /** A table row: the inputs shown and the gate's result for them. */
  datatype TableRow = BinaryRow(a: Bit, b: Bit, output: Bit) | UnaryRow(a: Bit, output: Bit)

  /** The gate function handed to the table: one of two inputs or one of one input. */
  datatype GateFunction = TwoInput(apply2: (Bit, Bit) -> Bit) | OneInput(apply1: Bit -> Bit)

  /**
   * The rows of `display_truth_table(gate, _, numInputs)`. The source selects
   * the two-input layout when `numInputs == 2` and the one-input layout
   * otherwise; it calls the gate with that many arguments, so the gate must
   * take that many.
   */
  function Display(gate: GateFunction, numInputs: int): (rows: seq<TableRow>)
    requires numInputs == 2 <==> gate.TwoInput?
    ensures numInputs == 2 ==> rows == [
      BinaryRow(0, 0, gate.apply2(0, 0)), BinaryRow(0, 1, gate.apply2(0, 1)),
      BinaryRow(1, 0, gate.apply2(1, 0)), BinaryRow(1, 1, gate.apply2(1, 1))]
    ensures numInputs != 2 ==> rows == [UnaryRow(0, gate.apply1(0)), UnaryRow(1, gate.apply1(1))]
  {
    if numInputs == 2 then
      var ps := TwoInputInputs();
      TwoInputOrder();
      seq(|ps|, i requires 0 <= i < |ps| => BinaryRow(ps[i].0, ps[i].1, gate.apply2(ps[i].0, ps[i].1)))
    else
      seq(|Bits|, i requires 0 <= i < |Bits| => UnaryRow(Bits[i], gate.apply1(Bits[i])))
  }

  /** The four tables the program shows, with their outputs. */
  lemma ProgramTables()
    ensures Display(TwoInput(And), 2) ==
      [BinaryRow(0, 0, 0), BinaryRow(0, 1, 0), BinaryRow(1, 0, 0), BinaryRow(1, 1, 1)]
    ensures Display(TwoInput(Or), 2) ==
      [BinaryRow(0, 0, 0), BinaryRow(0, 1, 1), BinaryRow(1, 0, 1), BinaryRow(1, 1, 1)]
    ensures Display(OneInput(Not), 1) == [UnaryRow(0, 1), UnaryRow(1, 0)]
    ensures Display(TwoInput(Xor), 2) ==
      [BinaryRow(0, 0, 0), BinaryRow(0, 1, 1), BinaryRow(1, 0, 1), BinaryRow(1, 1, 0)]
  {
  }
}
