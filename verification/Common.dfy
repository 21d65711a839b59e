/** Types and predicates shared by the models. */
module Common {

  datatype Option<+T> = None | Some(value: T)

  datatype Result<+T> = Ok(value: T) | Err(error: string)

  /** Number.MAX_SAFE_INTEGER. */
  const MAX_SAFE_INTEGER: nat := 9007199254740991

  predicate IsDigit(c: char) {
    '0' <= c <= '9'
  }

  ghost predicate Distinct<T>(s: seq<T>) {
    forall i, j :: 0 <= i < j < |s| ==> s[i] != s[j]
  }

  lemma {:induction false} ScaledOrder(x: real, y: real, z: real)
    requires z > 0.0
    ensures x <= y <==> x * z <= y * z
  {
    if x > y {
      assert (x - y) * z > 0.0;
      assert (x - y) * z == x * z - y * z;
    }
  }

  /** Fractions compare as their cross products do. */
  lemma {:induction false} FractionOrder(a: nat, w: nat, b: nat, v: nat)
    requires w > 0 && v > 0
    ensures a as real / w as real <= b as real / v as real <==> a * v <= b * w
  {
    var x, y, p, q := a as real / w as real, b as real / v as real, w as real, v as real;
    assert x * p == a as real && y * q == b as real;
    ScaledOrder(x, y, p * q);
    assert x * (p * q) == (x * p) * q && y * (p * q) == (y * q) * p;
    assert (a * v) as real == a as real * q && (b * w) as real == b as real * p;
  }
}
