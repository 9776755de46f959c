/** splitmix64 and rejection sampling (`rng.hpp`). A 64-bit word is a number below 2^64; xor is defined bit by bit. */
module Rng {
  import opened Pigeonhole
  import opened Powers

  const WORD: nat := 0x1_0000_0000_0000_0000
  const MAX: nat := WORD - 1

  const GAMMA: nat := 0x9E3779B97F4A7C15
  const FIRST: nat := 0xBF58476D1CE4E5B9
  const SECOND: nat := 0x94D049BB133111EB

  // ── the mixing function ──

  function Xor(a: nat, b: nat): nat
    decreases a + b
  {
    if a == 0 && b == 0 then 0 else 2 * Xor(a / 2, b / 2) + (a + b) % 2
  }

  function Shr(a: nat, k: nat): nat { if k == 0 then a else Shr(a / 2, k - 1) }

  function Scramble(z: nat, k: nat): nat { Xor(z, Shr(z, k)) }

  function Times(z: nat, c: nat): nat { z * c % WORD }

  /** What next() makes of its new state. */
  function Mix(z: nat): nat {
    Scramble(Times(Scramble(Times(Scramble(z, 30), FIRST), 27), SECOND), 31)
  }

  lemma XorParts(a: nat, b: nat)
    ensures Xor(a, b) / 2 == Xor(a / 2, b / 2) && Xor(a, b) % 2 == (a + b) % 2
  {
  }

  lemma Bits(a: nat, b: nat, x: nat)
    requires x % 2 == (a + b) % 2
    ensures (x + b) % 2 == a % 2
  {
  }

  lemma {:induction false} XorCancels(a: nat, b: nat)
    ensures Xor(Xor(a, b), b) == a
    decreases a + b
  {
    if a != 0 || b != 0 {
      var x := Xor(a, b);
      XorCancels(a / 2, b / 2);
      XorParts(a, b);
      XorParts(x, b);
      Bits(a, b, x);
      var y := Xor(x, b);
      assert y / 2 == a / 2 && y % 2 == a % 2;
    }
  }

  lemma {:induction false} XorShr(a: nat, b: nat, k: nat)
    ensures Shr(Xor(a, b), k) == Xor(Shr(a, k), Shr(b, k))
    decreases k
  {
    if k > 0 {
      assert Xor(a, b) / 2 == Xor(a / 2, b / 2);
      XorShr(a / 2, b / 2, k - 1);
    }
  }

  lemma {:induction false} ShrLess(a: nat, k: nat)
    ensures Shr(a, k) <= a && (k > 0 && a > 0 ==> Shr(a, k) < a)
    decreases k
  {
    if k > 0 { ShrLess(a / 2, k - 1); }
  }

  /** Two words with the same scramble are the same: their high parts are, by induction, and then xor cancels. */
  lemma {:induction false} ScrambleInjective(z: nat, w: nat, k: nat)
    requires k > 0 && Scramble(z, k) == Scramble(w, k)
    ensures z == w
    decreases z + w
  {
    if z == 0 && w == 0 {
    } else {
      XorShr(z, Shr(z, k), k);
      XorShr(w, Shr(w, k), k);
      ShrLess(z, k);
      ShrLess(w, k);
      ScrambleInjective(Shr(z, k), Shr(w, k), k);
      XorCancels(z, Shr(z, k));
      XorCancels(w, Shr(w, k));
    }
  }

  lemma {:induction false} XorBound(a: nat, b: nat, m: nat)
    requires a < Pow2(m) && b < Pow2(m)
    ensures Xor(a, b) < Pow2(m)
    decreases m
  {
    if a != 0 || b != 0 { XorBound(a / 2, b / 2, m - 1); }
  }

  lemma WordIsPow2()
    ensures Pow2(64) == WORD
  {
    assert Pow2(4) == 16;
    PowSum(4, 4);
    PowSum(8, 8);
    PowSum(16, 16);
    PowSum(32, 32);
  }

  lemma ScrambleWord(z: nat, k: nat)
    requires z < WORD
    ensures Scramble(z, k) < WORD
  {
    WordIsPow2();
    ShrLess(z, k);
    XorBound(z, Shr(z, k), 64);
  }

  /** Multiplying by an odd constant can be undone. */
  lemma TimesInjective(z: nat, w: nat, c: nat, inverse: nat, q: nat)
    requires z < WORD && w < WORD && c * inverse == 1 + q * WORD && Times(z, c) == Times(w, c)
    ensures z == w
  {
    Undo(z, c, inverse, q);
    Undo(w, c, inverse, q);
  }

  lemma Undo(z: nat, c: nat, inverse: nat, q: nat)
    requires z < WORD && c * inverse == 1 + q * WORD
    ensures Times(Times(z, c), inverse) == z
  {
    var r, d := z * c % WORD, z * c / WORD;
    Expand(z, c, inverse, q, r, d, WORD);
    Remainder(r * inverse, z, z * q - d * inverse);
  }

  lemma Expand(z: nat, c: nat, inverse: nat, q: nat, r: nat, d: nat, m: nat)
    requires z * c == m * d + r && c * inverse == 1 + q * m
    ensures r * inverse == z + m * (z * q - d * inverse)
  {
    assert r * inverse == z * (c * inverse) - m * d * inverse by {
      assert (z * c - m * d) * inverse == z * c * inverse - m * d * inverse;
    }
    assert z * (1 + q * m) == z + m * (z * q);
    assert m * (z * q - d * inverse) == m * (z * q) - m * d * inverse;
  }

  lemma Remainder(a: int, b: int, t: int)
    requires 0 <= b < WORD && a == b + WORD * t
    ensures a % WORD == b
  {
  }

  lemma FirstInjective(z: nat, w: nat)
    requires z < WORD && w < WORD && Times(z, FIRST) == Times(w, FIRST)
    ensures z == w
  {
    var inverse := 0x96DE1B173F119089;
    TimesInjective(z, w, FIRST, inverse, 0x70c3bca78f27f46c);
  }

  lemma SecondInjective(z: nat, w: nat)
    requires z < WORD && w < WORD && Times(z, SECOND) == Times(w, SECOND)
    ensures z == w
  {
    var inverse := 0x319642B2D24D8EC3;
    TimesInjective(z, w, SECOND, inverse, 0x1cd336eda85f1453);
  }

  lemma MixWord(z: nat)
    requires z < WORD
    ensures Mix(z) < WORD
  {
    ScrambleWord(Times(Scramble(Times(Scramble(z, 30), FIRST), 27), SECOND), 31);
  }

  lemma MixInjective(z: nat, w: nat)
    requires z < WORD && w < WORD
    ensures Mix(z) == Mix(w) <==> z == w
  {
    Unmix(z, w);
  }

  lemma Unmix(z: nat, w: nat)
    requires z < WORD && w < WORD
    ensures Mix(z) == Mix(w) ==> z == w
  {
    if Mix(z) != Mix(w) { return; }
    ScrambleWord(z, 30);
    ScrambleWord(w, 30);
    var a, b := Times(Scramble(z, 30), FIRST), Times(Scramble(w, 30), FIRST);
    ScrambleWord(a, 27);
    ScrambleWord(b, 27);
    ScrambleInjective(Times(Scramble(a, 27), SECOND), Times(Scramble(b, 27), SECOND), 31);
    SecondInjective(Scramble(a, 27), Scramble(b, 27));
    ScrambleInjective(a, b, 27);
    FirstInjective(Scramble(z, 30), Scramble(w, 30));
    ScrambleInjective(z, w, 30);
  }

  // ── the sequence ──

  /** The state after k draws. */
  function State(s: nat, k: nat): nat { (s + k * GAMMA) % WORD }

  /** The k-th output, from 1. */
  function Output(s: nat, k: nat): (x: nat)
    ensures x < WORD
  {
    MixWord(State(s, k));
    Mix(State(s, k))
  }

  lemma StateStep(s: nat, k: nat)
    ensures State(s, k + 1) == (State(s, k) + GAMMA) % WORD
  {
    var a := s + k * GAMMA;
    assert s + (k + 1) * GAMMA == a + GAMMA;
    var d := (a % WORD + GAMMA) / WORD;
    Remainder(a + GAMMA, (a % WORD + GAMMA) % WORD, a / WORD + d);
  }

  /** A multiple of GAMMA that is a multiple of 2^64 is 2^64 times over. */
  lemma GammaFree(n: nat, t: int)
    requires n * GAMMA == WORD * t
    ensures n % WORD == 0
  {
    var inverse, q := 0xF1DE83E19937733D, 0x957bbf35006ed677;
    Unwind(n, GAMMA, inverse, q, t, WORD);
    Remainder(n, 0, t * inverse - n * q);
  }

  lemma SameRemainder(a: nat, b: nat)
    requires a % WORD == b % WORD
    ensures b - a == WORD * (b / WORD - a / WORD)
  {
  }

  /** The states of 2^64 consecutive draws are different. */
  lemma StatesDiffer(s: nat, i: nat, j: nat)
    requires i < j < i + WORD
    ensures State(s, i) != State(s, j)
  {
    if State(s, i) == State(s, j) {
      var a, b := s + i * GAMMA, s + j * GAMMA;
      SameRemainder(a, b);
      assert (j - i) * GAMMA == b - a;
      GammaFree(j - i, b / WORD - a / WORD);
    }
  }

  lemma Unwind(n: nat, c: nat, inverse: nat, q: nat, t: int, m: nat)
    requires n * c == m * t && c * inverse == 1 + q * m
    ensures n == m * (t * inverse - n * q)
  {
    assert n * (c * inverse) == m * t * inverse by { assert n * c * inverse == n * (c * inverse); }
    assert n * (1 + q * m) == n + m * (n * q);
    assert m * (t * inverse - n * q) == m * t * inverse - m * (n * q);
  }

  /** Any 2^64 consecutive outputs are distinct. */
  lemma OutputsDiffer(s: nat, i: nat, j: nat)
    requires i < j < i + WORD
    ensures Output(s, i) != Output(s, j)
  {
    StatesDiffer(s, i, j);
    MixInjective(State(s, i), State(s, j));
  }

  /** From any state, 2^64 draws give every word exactly once: next() is a permutation. */
  lemma EveryWordOnce(s: nat, y: nat)
    requires y < WORD
    ensures exists i :: 1 <= i <= WORD && Output(s, i) == y
    ensures forall i, j :: 1 <= i < j <= WORD ==> Output(s, i) != Output(s, j)
  {
    forall i, j | 1 <= i < j <= WORD ensures Output(s, i) != Output(s, j) { OutputsDiffer(s, i, j); }
    if forall i :: 1 <= i <= WORD ==> Output(s, i) != y {
      FilledBound(Drawn(s, WORD) + [y], WORD);
    }
  }

  // ── below ──

  /** The last accepted word. */
  function Limit(n: nat): (limit: int)
    requires 0 < n < WORD
    ensures 0 <= limit < MAX
  {
    MAX - MAX % n - 1
  }

  /** The first k outputs are all above the limit. */
  ghost predicate Rejected(s: nat, n: nat, k: nat)
    requires 0 < n < WORD
  {
    forall i :: 1 <= i <= k ==> Output(s, i) > Limit(n)
  }

  /** After k rejections in a row: there are no more of them than words above the limit. */
  lemma RejectBound(s: nat, n: nat, k: nat)
    requires 0 < n < WORD && Rejected(s, n, k)
    ensures k <= MAX % n + 1
  {
    var m := if k < WORD then k else WORD;
    var xs := Drawn(s, m);
    forall i, j | 0 <= i < j < m ensures xs[i] != xs[j] { DrawnDiffer(s, m, i, j); }
    DistinctAbove(xs, Limit(n));
  }

  lemma RejectMore(s: nat, n: nat, k: nat)
    requires 0 < n < WORD && 1 <= k
    ensures Rejected(s, n, k - 1) && Output(s, k) > Limit(n) ==> Rejected(s, n, k) && k <= MAX % n + 1
    ensures State(State(s, k), 1) == State(s, k + 1) && Output(State(s, k), 1) == Output(s, k + 1)
  {
    if Rejected(s, n, k) { RejectBound(s, n, k); }
    StateStep(s, k);
    StateStep(State(s, k), 0);
  }

  /** The first k outputs. */
  function Drawn(s: nat, k: nat): (xs: seq<nat>)
    ensures |xs| == k
  {
    seq(k, i requires 0 <= i < k => Output(s, i + 1))
  }

  lemma DrawnDiffer(s: nat, k: nat, i: nat, j: nat)
    requires i < j < k <= WORD
    ensures Drawn(s, k)[i] != Drawn(s, k)[j]
  {
    OutputsDiffer(s, i + 1, j + 1);
  }

  lemma DistinctAbove(xs: seq<nat>, limit: nat)
    requires limit < MAX && forall i :: 0 <= i < |xs| ==> limit < xs[i] <= MAX
    requires forall i, j :: 0 <= i < j < |xs| ==> xs[i] != xs[j]
    ensures |xs| <= MAX - limit
  {
    FilledBound(seq(|xs|, i requires 0 <= i < |xs| => xs[i] - limit - 1), MAX - limit);
  }

  /** How many words below `upto` leave remainder r. */
  function Preimages(upto: nat, n: nat, r: nat): nat
    requires n > 0
  {
    if upto == 0 then 0 else Preimages(upto - 1, n, r) + if (upto - 1) % n == r then 1 else 0
  }

  /** m whole blocks of n words and j words of the next, `base` being where that one begins. */
  lemma {:induction false} PreimagesOf(n: nat, r: nat, m: nat, base: nat, j: nat)
    requires r < n && j <= n && base == n * m
    ensures Preimages(base + j, n, r) == m + if r < j then 1 else 0
    decreases m, j
  {
    if j > 0 {
      PreimagesOf(n, r, m, base, j - 1);
      Residue(n, m, j - 1);
    } else if m > 0 {
      BlockBefore(n, m);
      PreimagesOf(n, r, m - 1, base - n, n);
    } else {
      assert base == 0;
    }
  }

  lemma BlockBefore(n: nat, m: nat)
    requires m > 0
    ensures n * m - n == n * (m - 1)
  {
  }

  lemma Residue(n: nat, m: nat, j: nat)
    requires j < n
    ensures (n * m + j) % n == j
  {
    var d, e := (n * m + j) / n, (n * m + j) % n;
    Factor(n, m - d, e - j) by { assert n * (m - d) == n * m - n * d; }
  }

  lemma Grows(n: int, x: int)
    requires n >= 0
    ensures (x > 0 ==> n * x >= n) && (x < 0 ==> n * x <= -n)
  {
  }

  lemma Factor(n: int, x: int, y: int)
    requires n * x == y && -n < y < n
    ensures y == 0
  {
    Grows(n, x);
  }

  /** Every residue has the same number of accepted words. */
  lemma Unbiased(n: nat, r: nat)
    requires 0 < n < WORD && r < n
    ensures Preimages(Limit(n) + 1, n, r) == MAX / n
  {
    assert Limit(n) + 1 == n * (MAX / n);
    PreimagesOf(n, r, MAX / n, Limit(n) + 1, 0);
  }

  /** `r` is the first accepted word after the seed, modulo n, and `s` the state it left. */
  ghost predicate Drew(seed: nat, s: nat, n: nat, r: int, draws: nat)
    requires n < WORD
  {
    if n == 0 then r == 0 && s == seed && draws == 0
    else
      && 1 <= draws <= MAX % n + 2 && s == State(seed, draws)
      && Output(seed, draws) <= Limit(n) && r == Output(seed, draws) % n
      && Rejected(seed, n, draws - 1)
  }

  // ── in ──

  /** An integer type of 32 or 64 bits. */
  datatype Int = Int(wide: bool, signed: bool) {
    /** 2 to its width. */
    function Size(): nat { if wide then WORD else 0x1_0000_0000 }
    function Min(): int { if signed then -(Size() as int / 2) else 0 }
    predicate Has(x: int) { Min() <= x < Min() + Size() }
    /** Conversion to the unsigned type of the same width. */
    function Unsigned(x: int): nat { x % Size() }
    /** Conversion back, modulo the width. */
    function Back(u: nat): int { if u % Size() < Min() + Size() then u % Size() else u % Size() - Size() }
  }

  /** span + 1 in 64 bits. */
  function Ways(span: int): (n: nat)
    ensures n < WORD && (0 <= span < MAX ==> n == span + 1) && (span == MAX ==> n == 0)
  {
    (span + 1) % WORD
  }

  lemma Wrap(t: Int, a: int)
    requires 0 <= a + t.Size() && a < 2 * t.Size()
    ensures a % t.Size() == if a < 0 then a + t.Size() else if a < t.Size() then a else a - t.Size()
  {
    if t.wide { assert t.Size() == WORD; } else { assert t.Size() == 0x1_0000_0000; }
  }

  /** What in() adds up comes out between the bounds, as the distance from the lower one. */
  lemma InRange(t: Int, lo: int, hi: int, v: nat)
    requires t.Has(lo) && t.Has(hi) && lo <= hi && v <= hi - lo
    ensures (t.Unsigned(hi) - t.Unsigned(lo)) % t.Size() == hi - lo
    ensures v % t.Size() == v && t.Back((t.Unsigned(lo) + v) % t.Size()) == lo + v
  {
    Wrap(t, lo);
    Wrap(t, hi);
    Wrap(t, v);
    Wrap(t, t.Unsigned(hi) - t.Unsigned(lo));
    var u := t.Unsigned(lo) + v;
    Wrap(t, u);
    Wrap(t, u % t.Size());
  }

  class Generator {
    var s: nat

    constructor (seed: nat)
      requires seed < WORD
      ensures s == seed
    {
      s := seed;
    }

    method Next() returns (x: nat)
      modifies this
      ensures s == State(old(s), 1) && x == Output(old(s), 1)
    {
      StateStep(s, 0);
      s := (s + GAMMA) % WORD;
      var z := s;
      z := Times(Scramble(z, 30), FIRST);
      z := Times(Scramble(z, 27), SECOND);
      x := Scramble(z, 31);
    }

    /** below(): the first accepted word, modulo n, after at most (2^64 - 1) mod n + 1 rejections. */
    method Below(n: nat) returns (r: nat, ghost draws: nat)
      requires n < WORD && s < WORD
      modifies this
      ensures s < WORD
      ensures Drew(old(s), s, n, r, draws) && (n > 0 ==> r < n)
    {
      draws := 0;
      if n == 0 { return 0, 0; }
      var limit := MAX - MAX % n - 1;
      ghost var seed := s;
      var x := Next();
      draws := 1;
      while x > limit
        invariant 1 <= draws <= MAX % n + 2 && s < WORD
        invariant s == State(seed, draws) && x == Output(seed, draws)
        invariant Rejected(seed, n, draws - 1)
        decreases MAX % n + 2 - draws
      {
        RejectMore(seed, n, draws);
        x := Next();
        draws := draws + 1;
      }
      r := x % n;
    }

    /** The distance that in() draws. */
    method Draw(t: Int, lo: int, hi: int) returns (v: nat, ghost draws: nat)
      requires t.Has(lo) && t.Has(hi) && lo <= hi && s < WORD
      modifies this
      ensures s < WORD && v <= hi - lo && Drew(old(s), s, Ways(hi - lo), v, draws)
    {
      InRange(t, lo, hi, 0);
      var span := (t.Unsigned(hi) - t.Unsigned(lo)) % t.Size();
      v, draws := Below(Ways(span));
    }

    /** in(), its bounds in order. */
    method InOrdered(t: Int, lo: int, hi: int) returns (r: int, ghost draws: nat)
      requires t.Has(lo) && t.Has(hi) && lo <= hi && s < WORD
      modifies this
      ensures s < WORD && lo <= r <= hi && Drew(old(s), s, Ways(hi - lo), r - lo, draws)
    {
      var v;
      v, draws := Draw(t, lo, hi);
      InRange(t, lo, hi, v);
      r := t.Back((t.Unsigned(lo) + v % t.Size()) % t.Size());
    }

    /** in(), for the types that are not promoted. Bounds in either order. The full 64-bit range makes the span wrap
        to zero, and then the lower bound is the answer. */
    method In(t: Int, first: int, second: int) returns (r: int, ghost draws: nat)
      requires t.Has(first) && t.Has(second) && s < WORD
      modifies this
      ensures s < WORD
      ensures first <= second ==> first <= r <= second && Drew(old(s), s, Ways(second - first), r - first, draws)
      ensures second < first ==> second <= r <= first && Drew(old(s), s, Ways(first - second), r - second, draws)
    {
      var lo, hi := first, second;
      if hi < lo { lo, hi := hi, lo; }
      r, draws := InOrdered(t, lo, hi);
    }
  }
}
