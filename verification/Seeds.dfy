/**
 The seed of each connection's random stream (src/worker.rs). A word is a number below 2^64;
 exclusive or and shifts are defined on numbers by their binary digits.
 */
module Seeds {
  import opened Numbers

  type Word = x: nat | x < WORD

  // ---- Exclusive or and shifts ---------------------------------------------------------------------

  function Half(x: nat): (h: nat)
    ensures x > 0 ==> h < x
  {
    x / 2
  }

  function Low(x: nat): nat { x % 2 }

  /** The digit that tells two digits apart. */
  function Differ(x: nat, y: nat): nat { (x + y) % 2 }

  /** Digit by digit, the digits of `a` and `b` that differ. */
  function Xor(a: nat, b: nat): nat
    decreases a + b
  {
    if a == 0 then b
    else if b == 0 then a
    else 2 * Xor(Half(a), Half(b)) + Differ(Low(a), Low(b))
  }

  function Shr(x: nat, k: nat): nat
    decreases k
  {
    if k == 0 then x else Shr(x / 2, k - 1)
  }

  function Shl(x: nat, k: nat): nat
    decreases k
  {
    if k == 0 then x else Shl(2 * x, k - 1)
  }

  lemma XorDigits(a: nat, b: nat)
    ensures Half(Xor(a, b)) == Xor(Half(a), Half(b)) && Low(Xor(a, b)) == Differ(Low(a), Low(b))
  {
  }

  lemma SameDigits(a: nat, b: nat)
    requires Half(a) == Half(b) && Low(a) == Low(b)
    ensures a == b
  {
  }

  lemma {:induction false} XorCommutes(a: nat, b: nat)
    ensures Xor(a, b) == Xor(b, a)
    decreases a + b
  {
    if a != 0 && b != 0 {
      XorCommutes(a / 2, b / 2);
    }
  }

  lemma {:induction false} XorAssociates(a: nat, b: nat, c: nat)
    ensures Xor(Xor(a, b), c) == Xor(a, Xor(b, c))
    decreases a + b + c
  {
    if a != 0 && b != 0 && c != 0 {
      hide Xor, Half, Low, Differ;
      XorAssociates(Half(a), Half(b), Half(c));
      XorDigits(a, b);
      XorDigits(b, c);
      XorDigits(Xor(a, b), c);
      XorDigits(a, Xor(b, c));
      DifferAssociates(Low(a), Low(b), Low(c));
      SameDigits(Xor(Xor(a, b), c), Xor(a, Xor(b, c)));
    }
  }

  lemma DifferAssociates(x: nat, y: nat, z: nat)
    ensures Differ(Differ(x, y), z) == Differ(x, Differ(y, z))
  {
  }

  lemma {:induction false} XorSelf(a: nat)
    ensures Xor(a, a) == 0 && Xor(a, 0) == a && Xor(0, a) == a
  {
    if a != 0 {
      XorSelf(a / 2);
    }
  }

  lemma {:induction false} XorBound(a: nat, b: nat, k: nat)
    requires a < Pow2(k) && b < Pow2(k)
    ensures Xor(a, b) < Pow2(k)
    decreases k
  {
    if k > 0 && a != 0 && b != 0 {
      XorBound(a / 2, b / 2, k - 1);
    }
  }

  lemma {:induction false} ShrXor(a: nat, b: nat, k: nat)
    ensures Shr(Xor(a, b), k) == Xor(Shr(a, k), Shr(b, k))
    decreases k
  {
    if k > 0 {
      XorDigits(a, b);
      ShrXor(a / 2, b / 2, k - 1);
    }
  }

  lemma {:induction false} ShrTwice(x: nat, j: nat, k: nat)
    ensures Shr(Shr(x, j), k) == Shr(x, j + k)
    decreases j
  {
    if j > 0 {
      ShrTwice(x / 2, j - 1, k);
    }
  }

  lemma {:induction false} ShrSmall(x: nat, k: nat)
    requires x < Pow2(k)
    ensures Shr(x, k) == 0
    decreases k
  {
    if k > 0 {
      ShrSmall(x / 2, k - 1);
    }
  }

  lemma {:induction false} ShrShrinks(x: nat, k: nat)
    ensures Shr(x, k) <= x
    decreases k
  {
    if k > 0 {
      ShrShrinks(x / 2, k - 1);
    }
  }

  lemma {:induction false} ShlTwice(x: nat, j: nat, k: nat)
    ensures Shl(Shl(x, j), k) == Shl(x, j + k)
    decreases j
  {
    if j > 0 {
      ShlTwice(2 * x, j - 1, k);
    }
  }

  lemma {:induction false} ShlValue(x: nat, k: nat)
    ensures Shl(x, k) == x * Pow2(k)
    decreases k
  {
    if k > 0 {
      ShlValue(2 * x, k - 1);
      MoveTwo(x, Pow2(k - 1));
    }
  }

  lemma MoveTwo(x: nat, p: nat)
    ensures 2 * x * p == x * (2 * p)
  {
  }

  /** Shifting left and then right by no less leaves the rest of the right shift. */
  lemma {:induction false} ShlThenShr(x: nat, j: nat, k: nat)
    ensures Shr(Shl(x, j), j + k) == Shr(x, k)
    decreases j
  {
    if j > 0 {
      ShlLast(x, j);
      assert Shl(x, j) / 2 == Shl(x, j - 1);
      ShlThenShr(x, j - 1, k);
    }
  }

  lemma ShlLast(x: nat, j: nat)
    requires j > 0
    ensures Shl(x, j) == 2 * Shl(x, j - 1)
  {
    ShlTwice(x, j - 1, 1);
  }

  lemma PowersOfTwo()
    ensures Pow2(30) == 0x4000_0000 && Pow2(32) == 0x1_0000_0000
    ensures Pow2(62) == 0x4000_0000_0000_0000 && Pow2(64) == WORD
  {
    assert Pow2(8) == 256;
    assert Pow2(16) == 0x1_0000;
    assert Pow2(24) == 0x100_0000;
    assert Pow2(32) == 0x1_0000_0000;
    assert Pow2(40) == 0x100_0000_0000;
    assert Pow2(48) == 0x1_0000_0000_0000;
    assert Pow2(56) == 0x100_0000_0000_0000;
  }

  lemma XorCancels(a: nat, x: nat, y: nat)
    requires Xor(a, x) == Xor(a, y)
    ensures x == y
  {
    XorAssociates(a, a, x);
    XorAssociates(a, a, y);
    XorSelf(a);
    XorSelf(x);
    XorSelf(y);
  }

  // ---- The finalizer -----------------------------------------------------------------------------------

  function Plus(x: Word, c: Word): Word { (x + c) % WORD }

  function Times(x: Word, c: Word): Word { x * c % WORD }

  /** `x ^ (x >> k)` */
  function Fold(x: Word, k: nat): Word {
    FoldFits(x, k);
    Xor(x, Shr(x, k))
  }

  lemma FoldFits(x: Word, k: nat)
    ensures Xor(x, Shr(x, k)) < WORD
  {
    PowersOfTwo();
    ShrShrinks(x, k);
    XorBound(x, Shr(x, k), 64);
  }

  const GAMMA: Word := 0x9E37_79B9_7F4A_7C15
  const MUL1: Word := 0xBF58_476D_1CE4_E5B9
  const MUL2: Word := 0x94D0_49BB_1331_11EB

  function SplitMix64(x: Word): Word {
    Fold(Times(Fold(Times(Fold(Plus(x, GAMMA), 30), MUL1), 27), MUL2), 31)
  }

  // ---- And each of its steps undone ------------------------------------------------------------------

  const INV1: Word := 0x96DE_1B17_3F11_9089
  const INV2: Word := 0x3196_42B2_D24D_8EC3

  function Minus(x: Word, c: Word): Word { (x + WORD - c) % WORD }

  /** Undoes `Fold` for a shift of at least a third of a word. */
  function Unfold(y: Word, k: nat): Word {
    FoldFits(y, k);
    FoldFits2(y, k);
    Xor(Xor(y, Shr(y, k)), Shr(y, 2 * k))
  }

  lemma FoldFits2(y: Word, k: nat)
    ensures Xor(Xor(y, Shr(y, k)), Shr(y, 2 * k)) < WORD
  {
    FoldFits(y, k);
    PowersOfTwo();
    ShrShrinks(y, 2 * k);
    XorBound(Xor(y, Shr(y, k)), Shr(y, 2 * k), 64);
  }

  function Unmix(y: Word): Word {
    Minus(Unfold(Times(Unfold(Times(Unfold(y, 31), INV2), 27), INV1), 30), GAMMA)
  }

  lemma PlusUndone(x: Word, c: Word)
    ensures Minus(Plus(x, c), c) == x && Plus(Minus(x, c), c) == x
  {
  }

  lemma ThreeFolds(x: nat, x1: nat, x2: nat)
    ensures Xor(Xor(Xor(x, x1), Xor(x1, x2)), x2) == x
  {
    hide Xor;
    XorAssociates(x, x1, Xor(x1, x2));
    XorAssociates(x1, x1, x2);
    XorSelf(x1);
    XorSelf(x2);
    XorAssociates(x, x2, x2);
    XorSelf(x);
  }

  /** What is folded out of a word by a shift of a third of it or more can be folded back. */
  lemma FoldUndone(x: Word, k: nat)
    requires 3 * k >= 64
    ensures Unfold(Fold(x, k), k) == x && Fold(Unfold(x, k), k) == x
  {
    hide Xor, Shr;
    var x1, x2 := Shr(x, k), Shr(x, 2 * k);
    PowersOfTwo();
    ShrTwice(x, k, k);
    ShrTwice(x, k, 2 * k);
    ShrTwice(x, 2 * k, k);
    ShrTwice(x, 64, 3 * k - 64);
    ShrSmall(x, 64);
    ShrShrinks(0, 3 * k - 64);
    assert Shr(x, 3 * k) == 0;
    ShrXor(x, x1, k);
    ShrXor(x, x1, 2 * k);
    XorSelf(x2);
    ThreeFolds(x, x1, x2);
    // The other way round: the shifted terms cancel.
    ShrXor(Xor(x, x1), x2, k);
    XorCancelsEnds(x, x1, x2);
    XorSelf(Xor(x1, x2));
  }

  lemma XorCancelsEnds(x: nat, x1: nat, x2: nat)
    ensures Xor(Xor(Xor(x, x1), x2), Xor(x1, x2)) == x
  {
    hide Xor;
    XorAssociates(Xor(x, x1), x2, Xor(x1, x2));
    XorCommutes(x1, x2);
    XorAssociates(x2, x2, x1);
    XorSelf(x2);
    XorSelf(x1);
    XorAssociates(x, x1, x1);
    XorSelf(x);
  }

  /** A number that is `x` and a multiple of a word more or less. */
  lemma SameResidue(x: Word, n: int, q: int)
    requires n == x + q * WORD
    ensures n % WORD == x
  {
  }

  /** Multiplying by a unit of the word ring is undone by multiplying by its inverse. */
  lemma TimesUndone(x: Word, c: Word, inv: Word)
    requires c * inv % WORD == 1
    ensures Times(Times(x, c), inv) == x
  {
    var k, q, r := c * inv / WORD, x * c / WORD, x * c % WORD;
    assert c * inv == k * WORD + 1;
    assert x * c == q * WORD + r;
    Expand(x, c, inv, q, r, k);
    SameResidue(x, r * inv, x * k - q * inv);
  }

  lemma Expand(x: int, c: int, inv: int, q: int, r: int, k: int)
    requires c * inv == k * WORD + 1 && x * c == q * WORD + r
    ensures r * inv == x + (x * k - q * inv) * WORD
  {
    assert r == x * c - q * WORD;
    assert r * inv == (x * c) * inv - (q * WORD) * inv;
    assert (x * c) * inv == x * (c * inv);
    assert x * (c * inv) == x * (k * WORD) + x;
    assert x * (k * WORD) == (x * k) * WORD;
    assert (q * WORD) * inv == (q * inv) * WORD;
  }

  /** The finalizer is a bijection on words: `Unmix` is its inverse on both sides. */
  lemma SplitMixIsBijection(x: Word)
    ensures Unmix(SplitMix64(x)) == x && SplitMix64(Unmix(x)) == x
  {
    hide Plus, Minus, Times, Fold, Unfold;
    var a := Plus(x, GAMMA);
    var b := Fold(a, 30);
    var c := Times(b, MUL1);
    var d := Fold(c, 27);
    var e := Times(d, MUL2);
    PlusUndone(x, GAMMA);
    FoldUndone(a, 30);
    TimesUndone(b, MUL1, INV1);
    FoldUndone(c, 27);
    TimesUndone(d, MUL2, INV2);
    FoldUndone(e, 31);
    var p := Unfold(x, 31);
    var q := Times(p, INV2);
    var r := Unfold(q, 27);
    var s := Times(r, INV1);
    var t := Unfold(s, 30);
    FoldUndone(x, 31);
    TimesUndone(p, INV2, MUL2);
    FoldUndone(q, 27);
    TimesUndone(r, INV1, MUL1);
    FoldUndone(s, 30);
    PlusUndone(t, GAMMA);
  }

  // ---- Connection seeds ------------------------------------------------------------------------------

  /** Which kind of connection a seed is for. */
  datatype Role = Reader | Append | Dispatcher

  function RoleNumber(role: Role): nat {
    match role
    case Reader => 0
    case Append => 1
    case Dispatcher => 2
  }

  function Position(role: Role, worker: Word, index: Word): Word {
    PositionFits(RoleNumber(role), worker, index);
    Xor(Xor(Shl(RoleNumber(role), 62) % WORD, Shl(worker, 32) % WORD), index)
  }

  lemma PositionFits(role: nat, worker: nat, index: Word)
    ensures Xor(Xor(Shl(role, 62) % WORD, Shl(worker, 32) % WORD), index) < WORD
  {
    PowersOfTwo();
    XorBound(Shl(role, 62) % WORD, Shl(worker, 32) % WORD, 64);
    XorBound(Xor(Shl(role, 62) % WORD, Shl(worker, 32) % WORD), index, 64);
  }

  function ConnectionSeed(runSeed: Word, role: Role, worker: Word, index: Word): Word {
    var mixed := SplitMix64(Position(role, worker, index));
    XorFits(runSeed, mixed);
    SplitMix64(Xor(runSeed, mixed))
  }

  lemma XorFits(a: Word, b: Word)
    ensures Xor(a, b) < WORD
  {
    PowersOfTwo();
    XorBound(a, b, 64);
  }

  /** Within its bounds a position can be read back: the role from bit 62, the worker from bit 32, the index below. */
  lemma PositionReadsBack(role: Role, worker: Word, index: Word)
    requires worker < 0x4000_0000 && index < 0x1_0000_0000
    ensures var p := Position(role, worker, index);
            && Shr(p, 62) == RoleNumber(role)
            && Shr(p, 32) == Xor(Shl(RoleNumber(role), 30), worker)
            && p == Xor(Xor(Shl(RoleNumber(role), 62), Shl(worker, 32)), index)
  {
    hide Xor, Shr, Shl;
    var n := RoleNumber(role);
    NothingShiftedOut(n, worker);
    PartsReadBack(n, worker, index);
  }

  /** Within the bounds neither shift loses a digit to the word's end. */
  lemma NothingShiftedOut(n: nat, worker: nat)
    requires n <= 2 && worker < 0x4000_0000
    ensures Shl(n, 62) % WORD == Shl(n, 62) && Shl(worker, 32) % WORD == Shl(worker, 32)
  {
    hide Shl;
    PowersOfTwo();
    ShlValue(n, 62);
    ShlValue(worker, 32);
  }

  lemma PartsReadBack(n: nat, worker: nat, index: nat)
    requires worker < 0x4000_0000 && index < 0x1_0000_0000
    ensures var p := Xor(Xor(Shl(n, 62), Shl(worker, 32)), index);
            Shr(p, 62) == n && Shr(p, 32) == Xor(Shl(n, 30), worker)
  {
    hide Xor, Shr, Shl;
    PowersOfTwo();
    var high, middle := Shl(n, 62), Shl(worker, 32);
    ShrXor(Xor(high, middle), index, 62);
    ShrXor(high, middle, 62);
    ShlThenShr(n, 62, 0);
    ShlThenShr(worker, 32, 30);
    ShrSmall(worker, 30);
    ShrTwice(index, 32, 30);
    ShrSmall(index, 32);
    ShrShrinks(0, 30);
    ShrIsNone(n);
    ShrIsNone(worker);
    XorSelf(n);
    ShrXor(Xor(high, middle), index, 32);
    ShrXor(high, middle, 32);
    ShlTwice(n, 30, 32);
    ShlThenShr(Shl(n, 30), 32, 0);
    ShlThenShr(worker, 32, 0);
    ShrIsNone(Shl(n, 30));
    XorSelf(Xor(Shl(n, 30), worker));
  }

  lemma ShrIsNone(x: nat)
    ensures Shr(x, 0) == x
  {
  }

  /** Within one run no two positions share a seed, below 2^30 workers and 2^32 connections to a worker. */
  lemma SeedsNeverCollide(runSeed: Word, role1: Role, w1: Word, i1: Word, role2: Role, w2: Word, i2: Word)
    requires w1 < 0x4000_0000 && w2 < 0x4000_0000
    requires i1 < 0x1_0000_0000 && i2 < 0x1_0000_0000
    ensures ConnectionSeed(runSeed, role1, w1, i1) == ConnectionSeed(runSeed, role2, w2, i2) ==>
              role1 == role2 && w1 == w2 && i1 == i2
  {
    hide Xor, Shr, Shl, SplitMix64, Unmix, Position;
    if ConnectionSeed(runSeed, role1, w1, i1) == ConnectionSeed(runSeed, role2, w2, i2) {
      var p1, p2 := Position(role1, w1, i1), Position(role2, w2, i2);
      var m1, m2 := SplitMix64(p1), SplitMix64(p2);
      XorFits(runSeed, m1);
      XorFits(runSeed, m2);
      SplitMixIsBijection(Xor(runSeed, m1));
      SplitMixIsBijection(Xor(runSeed, m2));
      XorCancels(runSeed, m1, m2);
      SplitMixIsBijection(p1);
      SplitMixIsBijection(p2);
      PositionReadsBack(role1, w1, i1);
      PositionReadsBack(role2, w2, i2);
      var n := RoleNumber(role1);
      XorCancels(Shl(n, 30), w1, w2);
      XorCancels(Xor(Shl(n, 62), Shl(w1, 32)), i1, i2);
    }
  }

  /** At one position, different runs have different seeds. */
  lemma RunsNeverCollide(run1: Word, run2: Word, role: Role, worker: Word, index: Word)
    ensures ConnectionSeed(run1, role, worker, index) == ConnectionSeed(run2, role, worker, index) ==> run1 == run2
  {
    hide Xor, SplitMix64, Unmix, Position;
    if ConnectionSeed(run1, role, worker, index) == ConnectionSeed(run2, role, worker, index) {
      var mixed := SplitMix64(Position(role, worker, index));
      XorFits(run1, mixed);
      XorFits(run2, mixed);
      SplitMixIsBijection(Xor(run1, mixed));
      SplitMixIsBijection(Xor(run2, mixed));
      XorCommutes(run1, mixed);
      XorCommutes(run2, mixed);
      XorCancels(mixed, run1, run2);
    }
  }

  /**
   Two connections of different runs share a seed exactly when the run seeds differ by what their mixed positions
   differ by: no seed is shared because the run seeds and the positions themselves are near each other.
   */
  lemma RunsMeetExactly(run1: Word, role1: Role, w1: Word, i1: Word, run2: Word, role2: Role, w2: Word, i2: Word)
    ensures ConnectionSeed(run1, role1, w1, i1) == ConnectionSeed(run2, role2, w2, i2) <==>
            Xor(run1, run2) == Xor(SplitMix64(Position(role1, w1, i1)), SplitMix64(Position(role2, w2, i2)))
  {
    hide Xor, SplitMix64, Unmix, Position;
    var m1, m2 := SplitMix64(Position(role1, w1, i1)), SplitMix64(Position(role2, w2, i2));
    XorFits(run1, m1);
    XorFits(run2, m2);
    SplitMixIsBijection(Xor(run1, m1));
    SplitMixIsBijection(Xor(run2, m2));
    XorMoves(run1, m1, run2, m2);
  }

  lemma XorMoves(a: nat, x: nat, b: nat, y: nat)
    ensures Xor(a, x) == Xor(b, y) <==> Xor(a, b) == Xor(x, y)
  {
    hide Xor;
    // Both say that the four of them together have no digit left.
    XorAssociates(a, x, Xor(b, y));
    XorAssociates(x, b, y);
    XorCommutes(x, b);
    XorAssociates(b, x, y);
    XorAssociates(a, b, Xor(x, y));
    XorSelf(Xor(a, x));
    XorSelf(Xor(a, b));
    if Xor(a, x) == Xor(b, y) {
      XorCancelled(Xor(a, b), Xor(x, y));
    }
    if Xor(a, b) == Xor(x, y) {
      XorCancelled(Xor(a, x), Xor(b, y));
    }
  }

  /** Numbers with no digit different are equal. */
  lemma XorCancelled(a: nat, b: nat)
    requires Xor(a, b) == 0
    ensures a == b
  {
    hide Xor;
    XorSelf(a);
    XorCancels(a, b, a);
  }

  /**
   Both bounds are needed: worker 2^30 of the readers has the seeds of writer 0, and connection 2^32 of a worker
   has the seed of the next worker's first.
   */
  lemma BoundsAreTight(runSeed: Word, index: Word)
    ensures ConnectionSeed(runSeed, Reader, 0x4000_0000, index) == ConnectionSeed(runSeed, Append, 0, index)
    ensures ConnectionSeed(runSeed, Reader, 0, 0x1_0000_0000) == ConnectionSeed(runSeed, Reader, 1, 0)
  {
    hide Xor, SplitMix64, Shl;
    PowersOfTwo();
    ShlValue(0x4000_0000, 32);
    ShlValue(0, 32);
    ShlValue(1, 32);
    ShlValue(0, 62);
    ShlValue(1, 62);
    XorSelf(0x4000_0000_0000_0000);
    XorSelf(0x1_0000_0000);
    XorSelf(0);
  }
}
