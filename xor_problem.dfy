/**
 * The XOR problem: the hard-coded XOR table and the decomposition of XOR into
 * simpler gates that the program shows row by row.
 */
module XorProblem {
  import opened BooleanGates
  import TruthTable

  /** NAND, built as the inverse of AND. */
  function Nand(a: Bit, b: Bit): (r: Bit)
    ensures r == 0 <==> a == 1 && b == 1
  {
    Not(And(a, b))
  }

  /** The input rows of the XOR table, in the order they are listed. */
  const XorInputs: seq<(Bit, Bit)> := [(0, 0), (0, 1), (1, 0), (1, 1)]

  /** The expected XOR outputs listed alongside them. */
  const XorOutputs: seq<Bit> := [0, 1, 1, 0]

  /** The listed outputs are what the XOR gate computes, row for row, and the rows are the truth-table order. */
  lemma ListedTableAgreesWithGate()
    ensures |XorInputs| == |XorOutputs|
    ensures forall i :: 0 <= i < |XorInputs| ==> XorOutputs[i] == Xor(XorInputs[i].0, XorInputs[i].1)
    ensures XorInputs == TruthTable.TwoInputInputs()
  {
    TruthTable.TwoInputOrder();
  }

  /** One row of the breakdown table: A, B, A OR B, A AND B, NOT(A AND B), XOR. */
  datatype BreakdownRow = BreakdownRow(a: Bit, b: Bit, orResult: Bit, andResult: Bit, nandResult: Bit, xorResult: Bit)

  /** The row computed for inputs `a` and `b`: each column from its gate. */
  function Breakdown(a: Bit, b: Bit): (row: BreakdownRow)
    ensures row.a == a && row.b == b
    ensures row.orResult == Or(a, b) && row.andResult == And(a, b)
    ensures row.nandResult == Nand(a, b) && row.xorResult == Xor(a, b)
    ensures row.xorResult == And(row.orResult, row.nandResult)
  {
    var orResult := Or(a, b);
    var andResult := And(a, b);
    var nandResult := Not(andResult);
    BreakdownRow(a, b, orResult, andResult, nandResult, Xor(a, b))
  }

  /** The breakdown table, one row per listed input. */
  function BreakdownTable(): (rows: seq<BreakdownRow>)
    ensures |rows| == |XorInputs|
    ensures forall i :: 0 <= i < |rows| ==> rows[i] == Breakdown(XorInputs[i].0, XorInputs[i].1)
    ensures forall i :: 0 <= i < |rows| ==> (rows[i].a, rows[i].b) == XorInputs[i]
    ensures forall i :: 0 <= i < |rows| ==> rows[i].xorResult == XorOutputs[i]
  {
    seq(|XorInputs|, i requires 0 <= i < |XorInputs| => Breakdown(XorInputs[i].0, XorInputs[i].1))
  }

  /** Both decompositions of XOR hold on every pair of bits. */
  lemma XorDecomposition(a: Bit, b: Bit)
    ensures Xor(a, b) == And(Or(a, b), Nand(a, b))
    ensures Xor(a, b) == Or(And(a, Not(b)), And(Not(a), b))
  {
  }
}
