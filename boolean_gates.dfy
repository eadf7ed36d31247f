/**
 * The four logic gates of the boolean/ML lesson, on single bits.
 *
 * Each gate in the source applies a NumPy logical operation (which reads its
 * operands by truthiness: zero is false, anything else is true) and converts
 * the boolean result back to an integer. The bodies below follow that
 * construction; the contracts state what each gate's documentation promises.
 */
module BooleanGates {

  /** A binary digit: the only inputs the gates are meant for. */
  type Bit = b: int | 0 <= b <= 1

  /** Truthiness of an integer operand, as NumPy reads it. */
  predicate Truthy(b: Bit) {
    b != 0
  }

  /** Conversion of a boolean back to an integer (`.astype(int)`). */
  function FromBool(p: bool): (r: Bit)
    ensures (r == 1) == p
  {
    if p then 1 else 0
  }

  /** AND: 1 exactly when both inputs are 1, otherwise 0. */
  function And(a: Bit, b: Bit): (r: Bit)
    ensures r == 1 <==> a == 1 && b == 1
    ensures r == 0 <==> a == 0 || b == 0
  {
    FromBool(Truthy(a) && Truthy(b))
  }

  /** OR: 1 when at least one input is 1, otherwise 0. */
  function Or(a: Bit, b: Bit): (r: Bit)
    ensures r == 1 <==> a == 1 || b == 1
    ensures r == 0 <==> a == 0 && b == 0
  {
    FromBool(Truthy(a) || Truthy(b))
  }

  /** NOT: the inverse of its input. */
  function Not(a: Bit): (r: Bit)
    ensures r == 1 - a
  {
    FromBool(!Truthy(a))
  }

  /** XOR: 1 exactly when the inputs differ. */
  function Xor(a: Bit, b: Bit): (r: Bit)
    ensures r == 1 <==> a != b
    ensures r == 0 <==> a == b
  {
    FromBool(Truthy(a) != Truthy(b))
  }

  /** Applying NOT twice gives back the input. */
  lemma NotInvolutive(a: Bit)
    ensures Not(Not(a)) == a
  {
  }

  /** AND, OR and XOR do not depend on the order of their inputs. */
  lemma BinaryGatesCommute(a: Bit, b: Bit)
    ensures And(a, b) == And(b, a)
    ensures Or(a, b) == Or(b, a)
    ensures Xor(a, b) == Xor(b, a)
  {
  }
}
