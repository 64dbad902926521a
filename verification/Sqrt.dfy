/** The square root that prices the bootstrap pool
    (contracts/script/SepoliaBootstrap.s.sol), in checked uint256 arithmetic. */
module Sqrt {
  import opened Types

  /** One Newton step from any positive guess lands at or above the root. */
  lemma NewtonStaysAbove(x: nat, z: nat)
    requires z > 0
    ensures var n := (x / z + z) / 2; (n + 1) * (n + 1) > x
  {
    var q := x / z;
    var n := (q + z) / 2;
    assert x < z * (q + 1);
    assert 2 * n + 1 >= q + z;
    // 4z(q+1) = (z + q + 1)^2 - (z - q - 1)^2
    var s, d := z + q + 1, z - q - 1;
    assert s * s - d * d == 4 * (z * (q + 1));
    assert d * d >= 0;
    Square(s, 2 * (n + 1));
    assert (2 * (n + 1)) * (2 * (n + 1)) == 4 * ((n + 1) * (n + 1));
  }

  lemma Square(a: nat, b: nat)
    requires a <= b
    ensures a * a <= b * b
  {
    assert a * a <= a * b <= b * b;
  }

  /** The sum inside a Newton step never overflows, and the step only stops
      falling at or below the root. */
  lemma NewtonBounds(x: nat, z: nat)
    requires 0 < z <= x
    ensures 1 <= x / z && x / z + z <= x + 1
    ensures (x / z + z) / 2 >= z ==> z * z <= x
  {
    var q := x / z;
    assert x == z * q + x % z;
    assert z * 0 == 0;
    assert q >= 1;
    Product(z - 1, q - 1);
    assert (z - 1) * (q - 1) == z * q - z - q + 1;
    if (q + z) / 2 >= z {
      Product(z, q - z);
      assert z * (q - z) == z * q - z * z;
    }
  }

  lemma Product(a: int, b: int)
    requires a >= 0 && b >= 0
    ensures a * b >= 0
  {
  }

  lemma FirstGuess(x: nat)
    requires x > 0
    ensures (x / x + x) / 2 == (x + 1) / 2 > 0 && (x + 1) * (x + 1) > x
  {
    assert x / x == 1;
    assert (x + 1) * (x + 1) == x * x + 2 * x + 1;
  }

  /** The floor of the square root for every argument but the largest, where x + 1
      overflows and the call reverts. */
  method Sqrt(x: nat) returns (r: Option<nat>)
    requires x < UINT256_LIMIT
    ensures r.None? <==> x == UINT256_LIMIT - 1
    ensures r.Some? ==> r.value * r.value <= x < (r.value + 1) * (r.value + 1)
  {
    if x == 0 { return Some(0); }
    if x + 1 >= UINT256_LIMIT { return None; }
    var z := (x + 1) / 2;
    var y := x;
    FirstGuess(x);
    NewtonStaysAbove(x, x);
    while z < y
      invariant 0 < y <= x && 0 < z
      invariant (y + 1) * (y + 1) > x && (z + 1) * (z + 1) > x
      invariant z == (x / y + y) / 2
      decreases y
    {
      y := z;
      NewtonStaysAbove(x, y);
      NewtonBounds(x, y);
      assert x / y + y < UINT256_LIMIT;
      z := (x / y + y) / 2;
    }
    NewtonBounds(x, y);
    return Some(y);
  }
}
