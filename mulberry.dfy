/** The seeded generator `mulberry32` of shape/game.js. Its closure
    variable `a` is a 32-bit integer: every call first adds 0x6D2B79F5
    with wrap-around, then mixes the new state into 32 output bits. The
    state is kept here as its unsigned bit pattern, an integer in
    [0, 2^32); the mixing works on `bv32`. */
module Mulberry {

  const Modulus := 0x1_0000_0000
  const Increment := 0x6D2B79F5

  type U32 = x: int | 0 <= x < 0x1_0000_0000

  /** `x | 0` or `x >>> 0` of an integer `x`, as an unsigned bit pattern. */
  function ToU32(x: int): (r: U32)
    ensures (r - x) % Modulus == 0
  {
    x % Modulus
  }

  /** `x | 0` of an integer `x`: the signed 32-bit value. */
  function ToInt32(x: int): (r: int)
    ensures -0x8000_0000 <= r < 0x8000_0000
    ensures ToU32(r) == ToU32(x)
  {
    var u := ToU32(x);
    if u >= 0x8000_0000 then u - Modulus else u
  }

  /** `a = a + 0x6D2B79F5 | 0`. */
  function NextState(a: U32): U32 {
    (a + Increment) % Modulus
  }

  /** The rest of a call: `imul`, shifts and xors on the new state; the
      result is the `uint32` the source divides by 2^32. */
  function Mix(a: U32): bv32 {
    var s := a as bv32;
    var t := (s ^ (s >> 15)) * (1 | s);
    var u := (t + (t ^ (t >> 7)) * (61 | t)) ^ t;
    u ^ (u >> 14)
  }

  /** The state after `n` calls. */
  function StateAfter(a: U32, n: nat): U32 {
    if n == 0 then a else NextState(StateAfter(a, n - 1))
  }

  /** The outputs of the first `n` calls of a generator created with
      state `a`, as the 32-bit integers the source divides by 2^32. */
  function Draws(a: U32, n: nat): (r: seq<int>)
    ensures |r| == n
    ensures forall k :: 0 <= k < n ==> 0 <= r[k] < Modulus
  {
    seq(n, k requires 0 <= k < n => Output(StateAfter(a, k + 1)))
  }

  /** Call `k + 1` moves the state one step on and returns output `k`. */
  lemma NextDraw(a: U32, n: nat, k: nat)
    requires k < n
    ensures StateAfter(a, k + 1) == NextState(StateAfter(a, k))
    ensures Draws(a, n)[k] == Output(StateAfter(a, k + 1))
  {
    DrawAt(a, n, k);
  }

  lemma DrawAt(a: U32, n: nat, k: nat)
    requires k < n
    ensures Draws(a, n)[k] == Output(StateAfter(a, k + 1))
  {
  }

  /** The output for a new state `a`: `(t ^ t >>> 14) >>> 0`. */
  function Output(a: U32): (r: int)
    ensures 0 <= r < Modulus
  {
    Mix(a) as int
  }

  lemma {:induction false} ModOfSum(x: int, k: int)
    ensures (x % Modulus + k) % Modulus == (x + k) % Modulus
  {
    var q := x / Modulus;
    assert x == q * Modulus + x % Modulus;
    assert x + k == (x % Modulus + k) + q * Modulus;
  }

  /** Each call advances the state by exactly 0x6D2B79F5 modulo 2^32, so
      after `n` calls the state is a closed-form function of the seed. */
  lemma {:induction false} StateAfterClosedForm(a: U32, n: nat)
    ensures StateAfter(a, n) == (a + n * Increment) % Modulus
  {
    if n > 0 {
      StateAfterClosedForm(a, n - 1);
      ModOfSum(a + (n - 1) * Increment, Increment);
    }
  }

  lemma {:induction false} ModAddMultiple(x: int, c: int)
    ensures (x + c * Modulus) % Modulus == x % Modulus
  {
    var q, r := x / Modulus, x % Modulus;
    assert x + c * Modulus == (q + c) * Modulus + r;
  }

  /** The state sequence repeats after 2^32 calls. */
  lemma {:induction false} StatePeriod(a: U32, n: nat)
    ensures StateAfter(a, n + Modulus) == StateAfter(a, n)
  {
    StateAfterClosedForm(a, n);
    StateAfterClosedForm(a, n + Modulus);
    var x := a + n * Increment;
    assert a + (n + Modulus) * Increment == x + Increment * Modulus;
    ModAddMultiple(x, Increment);
  }

  /** A generator that has made `m` calls continues the sequence: its
      next `n` outputs are outputs `m` to `m + n` of the original. */
  lemma {:induction false} DrawsResume(a: U32, m: nat, n: nat)
    ensures Draws(StateAfter(a, m), n) == Draws(a, m + n)[m..]
  {
    var resumed, whole := Draws(StateAfter(a, m), n), Draws(a, m + n);
    forall k | 0 <= k < n
      ensures resumed[k] == whole[m + k]
    {
      StateAfterAdd(a, m, k + 1);
    }
    assert |resumed| == |whole[m..]|;
  }

  /** `m` calls followed by `n` more are `m + n` calls. */
  lemma {:induction false} StateAfterAdd(a: U32, m: nat, n: nat)
    ensures StateAfter(StateAfter(a, m), n) == StateAfter(a, m + n)
  {
    if n > 0 {
      StateAfterAdd(a, m, n - 1);
    }
  }
}
