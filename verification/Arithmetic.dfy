/** What the machine's operations compute, in terms of the numbers words stand for. */
module Arithmetic {
  import opened Collections
  import opened Machine
  import opened Words

  const MODULUS: nat := 0x1_0000_0000

  /** How counting on changes the lowest bit and the rest, for words made of anything. */
  ghost predicate NextRule<T>(half: T -> T, odd: T -> bool, next: T -> T, last: T, w: T) {
    && half(w) != last
    && (odd(w) && w != last ==> !odd(next(w)) && half(next(w)) == next(half(w)))
    && (!odd(w) ==> odd(next(w)) && half(next(w)) == half(w))
  }

  ghost predicate BitsRule<T>(half: T -> T, odd: T -> bool, f: T -> nat, w: T) {
    f(w) == 2 * f(half(w)) + (if odd(w) then 1 else 0)
  }

  lemma {:induction false} Counted<T(!new)>(half: T -> T, odd: T -> bool, next: T -> T, last: T, f: T -> nat, w: T)
    requires forall v: T :: NextRule(half, odd, next, last, v)
    requires forall v: T :: BitsRule(half, odd, f, v)
    requires w != last
    ensures f(next(w)) == f(w) + 1
    decreases f(w)
  {
    assert NextRule(half, odd, next, last, w) && BitsRule(half, odd, f, w) && BitsRule(half, odd, f, next(w));
    if odd(w) {
      Counted(half, odd, next, last, f, half(w));
    }
  }

  function Next(w: Word): Word { w + 1 }

  lemma WordNext(w: Word)
    ensures NextRule(Half, Odd, Next, 0xffff_ffff, w)
  {
  }

  lemma WordBits(w: Word)
    ensures BitsRule(Half, Odd, Num, w)
  {
    NumBits(w);
  }

  lemma NumNext(w: Word)
    ensures Num(w + 1) == if w == 0xffff_ffff then 0 else Num(w) + 1
  {
    forall v: Word ensures NextRule(Half, Odd, Next, 0xffff_ffff, v) { WordNext(v); }
    forall v: Word ensures BitsRule(Half, Odd, Num, v) { WordBits(v); }
    if w != 0xffff_ffff {
      Counted(Half, Odd, Next, 0xffff_ffff, Num, w);
      assert Next(w) == w + 1;
    }
  }

  function After(n: nat): nat { if n == MODULUS - 1 then 0 else n + 1 }

  /** What is known of counting with words. */
  ghost predicate CountsAt(f: Word -> nat, w: Word) {
    f(w) < MODULUS && f(w + 1) == After(f(w)) && (w != 0 ==> f(w) > 0)
  }

  ghost predicate Counts(f: Word -> nat) {
    f(0) == 0 && forall w: Word :: CountsAt(f, w)
  }

  /** `n` steps on from `m`, and `n` times `m` steps on from 0. */
  function Ahead(m: nat, n: nat): nat { if n == 0 then m else After(Ahead(m, n - 1)) }

  function Times(m: nat, n: nat): nat { if n == 0 then 0 else Ahead(Times(m, n - 1), m) }

  lemma {:induction false} AheadIs(m: nat, n: nat)
    requires m < MODULUS
    ensures Ahead(m, n) == (m + n) % MODULUS
    decreases n
  {
    if n > 0 {
      AheadIs(m, n - 1);
    }
  }

  lemma {:induction false} TimesIs(m: nat, n: nat)
    ensures Times(m, n) == (m * n) % MODULUS
    decreases n
  {
    if n == 0 {
      assert m * n == 0;
    } else {
      TimesIs(m, n - 1);
      AheadIs(Times(m, n - 1), m);
      MoreTimes(m, n);
    }
  }

  ghost predicate SumAt(f: Word -> nat, a: Word, b: Word, n: nat) {
    f(b) == n ==> f(a + b) == Ahead(f(a), n)
  }

  ghost predicate ProductAt(f: Word -> nat, a: Word, b: Word, n: nat) {
    f(b) == n ==> f(a * b) == Times(f(a), n)
  }

  lemma SumMore(f: Word -> nat, a: Word, b: Word, n: nat)
    requires Counts(f) && n > 0 && SumAt(f, a, b - 1, n - 1)
    ensures SumAt(f, a, b, n)
  {
    assert CountsAt(f, b - 1) && CountsAt(f, a + (b - 1));
  }

  lemma SumNone(f: Word -> nat, a: Word, b: Word)
    requires Counts(f)
    ensures SumAt(f, a, b, 0) && ProductAt(f, a, b, 0)
  {
    assert CountsAt(f, b);
  }

  lemma {:induction false} Summed(f: Word -> nat, n: nat)
    requires Counts(f)
    ensures forall a: Word, b: Word :: SumAt(f, a, b, n)
  {
    if n > 0 {
      Summed(f, n - 1);
    }
    forall a: Word, b: Word ensures SumAt(f, a, b, n) {
      if n > 0 {
        assert SumAt(f, a, b - 1, n - 1);
        SumMore(f, a, b, n);
      } else {
        SumNone(f, a, b);
      }
    }
  }

  lemma ProductMore(f: Word -> nat, a: Word, b: Word, n: nat)
    requires Counts(f) && n > 0 && ProductAt(f, a, b - 1, n - 1) && SumAt(f, a * (b - 1), a, f(a))
    ensures ProductAt(f, a, b, n)
  {
    assert CountsAt(f, b - 1);
  }

  lemma {:induction false} Multiplied(f: Word -> nat, n: nat)
    requires Counts(f)
    ensures forall a: Word, b: Word :: ProductAt(f, a, b, n)
  {
    if n > 0 {
      Multiplied(f, n - 1);
    }
    forall a: Word, b: Word ensures ProductAt(f, a, b, n) {
      if n > 0 {
        assert ProductAt(f, a, b - 1, n - 1);
        Summed(f, f(a));
        assert SumAt(f, a * (b - 1), a, f(a));
        ProductMore(f, a, b, n);
      } else {
        SumNone(f, a, b);
      }
    }
  }

  lemma MoreTimes(m: nat, n: nat)
    requires n > 0
    ensures ((m * (n - 1)) % MODULUS + m) % MODULUS == (m * n) % MODULUS
  {
    assert m * n == m * (n - 1) + m;
    ModSum(m * (n - 1), m);
  }

  lemma ModSum(m: nat, n: nat)
    ensures (m % MODULUS + n) % MODULUS == (m + n) % MODULUS
  {
  }

  lemma NumCounts()
    ensures Counts(Num)
  {
    forall w: Word ensures CountsAt(Num, w) {
      NumNext(w);
      NumBelow(w);
      LastIs(w);
      if w != 0 { NumPositive(w); }
    }
  }

  lemma LastIs(w: Word)
    ensures w == 0xffff_ffff <==> Num(w) == MODULUS - 1
  {
    NumBelow(w);
    if w == 0xffff_ffff {
      var l := OfNum(MODULUS - 1);
      NumOfNum(MODULUS - 1);
      NumNext(l);
      NumBelow(l + 1);
    } else {
      NumNext(w);
      NumBelow(w + 1);
    }
  }

  lemma SumOf(f: Word -> nat, a: Word, b: Word)
    requires Counts(f)
    ensures f(a + b) == (f(a) + f(b)) % MODULUS
  {
    Summed(f, f(b));
    assert SumAt(f, a, b, f(b)) && CountsAt(f, a);
    AheadIs(f(a), f(b));
  }

  lemma DifferenceBack(f: Word -> nat, a: Word, b: Word)
    requires Counts(f)
    ensures f(a) == (f(a - b) + f(b)) % MODULUS && f(a) < MODULUS && f(a - b) < MODULUS
  {
    Summed(f, f(b));
    assert SumAt(f, a - b, b, f(b)) && CountsAt(f, a - b) && CountsAt(f, a);
    AheadIs(f(a - b), f(b));
  }

  lemma DifferenceOf(f: Word -> nat, a: Word, b: Word)
    requires Counts(f)
    ensures f(a - b) == (f(a) - f(b)) % MODULUS
  {
    DifferenceBack(f, a, b);
    ModDifference(f(a), f(b), f(a - b));
  }

  lemma ProductOf(f: Word -> nat, a: Word, b: Word)
    requires Counts(f)
    ensures f(a * b) == (f(a) * f(b)) % MODULUS
  {
    Multiplied(f, f(b));
    assert ProductAt(f, a, b, f(b));
    TimesIs(f(a), f(b));
  }

  lemma NumSum(a: Word, b: Word)
    ensures Num(a + b) == (Num(a) + Num(b)) % MODULUS
  {
    NumCounts();
    SumOf(Num, a, b);
  }

  lemma NumProduct(a: Word, b: Word)
    ensures Num(a * b) == (Num(a) * Num(b)) % MODULUS
  {
    NumCounts();
    ProductOf(Num, a, b);
  }

  lemma ModDifference(x: nat, y: nat, d: nat)
    requires x < MODULUS && d < MODULUS && x == (d + y) % MODULUS
    ensures d == (x - y) % MODULUS
  {
  }

  lemma NumDifference(a: Word, b: Word)
    ensures Num(a - b) == (Num(a) - Num(b)) % MODULUS
  {
    NumCounts();
    DifferenceOf(Num, a, b);
  }

  function Left(a: Word, b: Word): Word { if b < 32 then a << (b as bv6) else 0 }

  function Right(a: Word, b: Word): Word { if b < 32 then a >> (b as bv6) else 0 }

  lemma LeftOnce(a: Word, b: Word)
    requires b != 0 && b <= 32
    ensures Left(a, b) == Left(a, b - 1) + Left(a, b - 1)
  {
  }

  lemma RightOnce(a: Word, b: Word)
    requires b != 0 && b <= 32
    ensures Right(a, b) == Half(Right(a, b - 1))
  {
  }

  lemma ShiftNone(a: Word, b: Word)
    ensures b == 0 ==> Left(a, b) == a && Right(a, b) == a
    ensures 32 <= b ==> Left(a, b) == 0 && Right(a, b) == 0
  {
  }

  lemma TwiceMore(m: nat, p: nat)
    ensures ((m * p) % MODULUS + (m * p) % MODULUS) % MODULUS == (m * (2 * p)) % MODULUS
  {
    assert m * (2 * p) == m * p + m * p;
    DoubleMod(m * p);
  }

  lemma DoubleMod(n: nat)
    ensures (n % MODULUS + n % MODULUS) % MODULUS == (n + n) % MODULUS
  {
  }

  lemma LeftMore(f: Word -> nat, a: Word, b: Word)
    requires Counts(f) && b != 0 && b <= 32
    ensures f(Left(a, b)) == (f(Left(a, b - 1)) + f(Left(a, b - 1))) % MODULUS
  {
    SumOf(f, Left(a, b - 1), Left(a, b - 1));
    LeftOnce(a, b);
  }

  lemma CountDown(f: Word -> nat, b: Word)
    requires Counts(f) && b != 0
    ensures f(b) > 0 && f(b - 1) == f(b) - 1
  {
    assert CountsAt(f, b) && CountsAt(f, b - 1);
  }

  lemma AtMost32(b: Word)
    requires b <= 32 && b != 0
    ensures b - 1 <= 32
  {
  }

  lemma {:induction false} LeftOf(f: Word -> nat, a: Word, b: Word, n: nat)
    requires Counts(f) && f(b) == n && b <= 32
    ensures f(Left(a, b)) == (f(a) * Power(n)) % MODULUS
    decreases n
  {
    if n == 0 {
      assert CountsAt(f, b) && CountsAt(f, a);
      ShiftNone(a, b);
    } else {
      CountDown(f, b);
      AtMost32(b);
      LeftOf(f, a, b - 1, n - 1);
      LeftMore(f, a, b);
      TwiceMore(f(a), Power(n - 1));
    }
  }

  /** If `r` is how often `p` goes into `m`, half of it is how often 2 * p does. */
  lemma HalfMore(m: nat, r: nat, p: nat, h: nat)
    requires r * p <= m < (r + 1) * p && (r == 2 * h || r == 2 * h + 1)
    ensures h * (2 * p) <= m < (h + 1) * (2 * p)
  {
    var t := h * p;
    assert h * (2 * p) == 2 * t;
    assert (h + 1) * (2 * p) == 2 * t + 2 * p;
    assert (r + 1) * p == r * p + p;
    if r == 2 * h {
      assert r * p == 2 * t;
    } else {
      assert r * p == 2 * t + p;
    }
  }

  ghost predicate DigitsRule<T>(half: T -> T, odd: T -> bool, f: T -> nat, w: T) {
    f(half(w)) == f(w) / 2 && (odd(w) <==> f(w) % 2 == 1)
  }

  /** `p` goes into `m` exactly `r` times. */
  predicate Goes(r: nat, p: nat, m: nat) { r * p <= m < (r + 1) * p }

  lemma RightMore(f: Word -> nat, a: Word, b: Word, p: nat)
    requires b != 0 && b <= 32 && DigitsRule(Half, Odd, f, Right(a, b - 1)) && Goes(f(Right(a, b - 1)), p, f(a))
    ensures Goes(f(Right(a, b)), 2 * p, f(a))
  {
    RightOnce(a, b);
    HalfMore(f(a), f(Right(a, b - 1)), p, f(Right(a, b)));
  }

  lemma {:induction false} RightOf(f: Word -> nat, a: Word, b: Word, n: nat)
    requires Counts(f) && (forall w: Word :: DigitsRule(Half, Odd, f, w)) && f(b) == n && b <= 32
    ensures Goes(f(Right(a, b)), Power(n), f(a))
    decreases n
  {
    if n == 0 {
      assert CountsAt(f, b);
      ShiftNone(a, b);
    } else {
      CountDown(f, b);
      AtMost32(b);
      RightOf(f, a, b - 1, n - 1);
      RightMore(f, a, b, Power(n - 1));
    }
  }

  /** Bit `i` of a number, the lowest being bit 0. */
  predicate Bit(n: nat, i: nat) { if i == 0 then n % 2 == 1 else Bit(n / 2, i - 1) }

  predicate Either(both: bool, p: bool, q: bool) { if both then p && q else p || q }

  ghost predicate BitwiseRule<T>(half: T -> T, odd: T -> bool, op: (T, T) -> T, both: bool, a: T, b: T) {
    half(op(a, b)) == op(half(a), half(b)) && odd(op(a, b)) == Either(both, odd(a), odd(b))
  }

  lemma {:induction false} BitwiseOf<T(!new)>(half: T -> T, odd: T -> bool, op: (T, T) -> T, both: bool, f: T -> nat,
                                            a: T, b: T, i: nat)
    requires forall w: T :: DigitsRule(half, odd, f, w)
    requires forall v: T, w: T :: BitwiseRule(half, odd, op, both, v, w)
    ensures Bit(f(op(a, b)), i) == Either(both, Bit(f(a), i), Bit(f(b), i))
    decreases i
  {
    assert DigitsRule(half, odd, f, a) && DigitsRule(half, odd, f, b) && BitwiseRule(half, odd, op, both, a, b);
    assert DigitsRule(half, odd, f, op(a, b));
    if i > 0 {
      BitwiseOf(half, odd, op, both, f, half(a), half(b), i - 1);
    }
  }

  function And(a: Word, b: Word): Word { a & b }

  function Or(a: Word, b: Word): Word { a | b }

  lemma WordDigits(w: Word)
    ensures DigitsRule(Half, Odd, Num, w)
  {
    NumHalf(w);
  }

  lemma AndHalf(a: Word, b: Word)
    ensures Half(And(a, b)) == And(Half(a), Half(b))
  {
  }

  lemma OrHalf(a: Word, b: Word)
    ensures Half(Or(a, b)) == Or(Half(a), Half(b))
  {
  }

  lemma AndOdd(a: Word, b: Word)
    ensures Odd(And(a, b)) <==> Odd(a) && Odd(b)
  {
  }

  lemma OrOdd(a: Word, b: Word)
    ensures Odd(Or(a, b)) <==> Odd(a) || Odd(b)
  {
  }

  lemma AndRule(a: Word, b: Word)
    ensures BitwiseRule(Half, Odd, And, true, a, b)
  {
    AndHalf(a, b);
    AndOdd(a, b);
  }

  lemma OrRule(a: Word, b: Word)
    ensures BitwiseRule(Half, Odd, Or, false, a, b)
  {
    OrHalf(a, b);
    OrOdd(a, b);
  }

  lemma NumDigits()
    ensures forall w: Word :: DigitsRule(Half, Odd, Num, w)
  {
    forall w: Word ensures DigitsRule(Half, Odd, Num, w) { WordDigits(w); }
  }

  lemma NumBitwise(a: Word, b: Word, i: nat)
    ensures Bit(Num(And(a, b)), i) <==> Bit(Num(a), i) && Bit(Num(b), i)
    ensures Bit(Num(Or(a, b)), i) <==> Bit(Num(a), i) || Bit(Num(b), i)
  {
    NumDigits();
    forall v: Word, w: Word ensures BitwiseRule(Half, Odd, And, true, v, w) { AndRule(v, w); }
    forall v: Word, w: Word ensures BitwiseRule(Half, Odd, Or, false, v, w) { OrRule(v, w); }
    BitwiseOf(Half, Odd, And, true, Num, a, b, i);
    BitwiseOf(Half, Odd, Or, false, Num, a, b, i);
  }

  lemma NumLeft(a: Word, b: Word)
    requires b <= 32
    ensures Num(Left(a, b)) == (Num(a) * Power(Num(b))) % MODULUS
  {
    NumCounts();
    LeftOf(Num, a, b, Num(b));
  }

  lemma NumRight(a: Word, b: Word)
    requires b <= 32
    ensures Goes(Num(Right(a, b)), Power(Num(b)), Num(a))
  {
    NumCounts();
    NumDigits();
    RightOf(Num, a, b, Num(b));
  }

  /** What an operation on the numbers `x` and `y` amounts to, in 32 bits. */
  ghost predicate Computes(op: AluOp, x: nat, y: nat, n: nat) {
    match op
    case Add => n == (x + y) % 0x1_0000_0000
    case Sub => n == (x - y) % 0x1_0000_0000
    case Mul => n == (x * y) % 0x1_0000_0000
    case Div => y > 0 && Goes(n, y, x)
    case Or => forall i: nat :: Bit(n, i) <==> Bit(x, i) || Bit(y, i)
    case And => forall i: nat :: Bit(n, i) <==> Bit(x, i) && Bit(y, i)
    case Lsh => n == if y < 32 then (x * Power(y)) % 0x1_0000_0000 else 0
    case Rsh => if y < 32 then Goes(n, Power(y), x) else n == 0
  }

  lemma Below32(b: Word)
    ensures b < 32 <==> Num(b) < 32
  {
    Order(b, 32);
    assert OfNum(32) == 32;
    NumOfNum(32);
  }

  lemma ShiftedLeft(a: Word, b: Word)
    ensures Computes(Lsh, Num(a), Num(b), Num(Left(a, b)))
  {
    Below32(b);
    ShiftNone(a, b);
    if b < 32 {
      NumLeft(a, b);
    }
  }

  lemma ShiftedRight(a: Word, b: Word)
    ensures Computes(Rsh, Num(a), Num(b), Num(Right(a, b)))
  {
    Below32(b);
    ShiftNone(a, b);
    if b < 32 {
      NumRight(a, b);
    }
  }

  lemma BitwiseRight(a: Word, b: Word)
    ensures Computes(AluOp.And, Num(a), Num(b), Num(And(a, b))) && Computes(AluOp.Or, Num(a), Num(b), Num(Or(a, b)))
  {
    forall i: nat
      ensures Bit(Num(And(a, b)), i) <==> Bit(Num(a), i) && Bit(Num(b), i)
      ensures Bit(Num(Or(a, b)), i) <==> Bit(Num(a), i) || Bit(Num(b), i)
    {
      NumBitwise(a, b, i);
    }
  }

  /** The machine's arithmetic: no value exactly for a division by zero. */
  lemma AluRight(op: AluOp, a: Word, b: Word)
    ensures Alu(op, a, b).None? <==> op.Div? && Num(b) == 0
    ensures Alu(op, a, b).Some? ==> Computes(op, Num(a), Num(b), Num(Alu(op, a, b).value))
  {
    match op
    case Add => NumSum(a, b);
    case Sub => NumDifference(a, b);
    case Mul => NumProduct(a, b);
    case Div => if b != 0 { QuotientRight(a, b); }
    case Or => BitwiseRight(a, b);
    case And => BitwiseRight(a, b);
    case Lsh => ShiftedLeft(a, b);
    case Rsh => ShiftedRight(a, b);
  }

  lemma {:induction false} SomeBit(n: nat) returns (i: nat)
    requires n > 0
    ensures Bit(n, i)
  {
    if n % 2 == 1 {
      i := 0;
    } else {
      var j := SomeBit(n / 2);
      i := j + 1;
    }
  }

  lemma {:induction false} NoBit(i: nat)
    ensures !Bit(0, i)
  {
    if i > 0 {
      NoBit(i - 1);
    }
  }

  lemma CommonBit(a: Word, b: Word)
    ensures Compare(Jset, a, b) <==> exists i: nat :: Bit(Num(a), i) && Bit(Num(b), i)
  {
    SameWord(And(a, b), 0);
    if And(a, b) != 0 {
      var i := SomeBit(Num(And(a, b)));
      NumBitwise(a, b, i);
    }
    forall i: nat | Bit(Num(a), i) && Bit(Num(b), i) ensures And(a, b) != 0 {
      NumBitwise(a, b, i);
      NoBit(i);
    }
  }

  /** The machine's tests. */
  lemma CompareRight(op: JmpOp, a: Word, b: Word)
    ensures Compare(op, a, b) <==>
              match op
              case Jeq => Num(a) == Num(b)
              case Jgt => Num(a) > Num(b)
              case Jge => Num(a) >= Num(b)
              case Jset => exists i: nat :: Bit(Num(a), i) && Bit(Num(b), i)
  {
    match op
    case Jeq => SameWord(a, b);
    case Jgt => Order(b, a);
    case Jge => NotBelow(a, b);
    case Jset => CommonBit(a, b);
  }

  lemma NotBelow(a: Word, b: Word)
    ensures a >= b <==> Num(a) >= Num(b)
  {
    Order(a, b);
    assert a >= b <==> !(a < b);
  }

  /** Addresses wrap round, */
  lemma OffsetRight(x: Word, k: Word)
    ensures Num(Offset(x, k)) == (Num(x) + Num(k)) % 0x1_0000_0000
  {
    NumSum(x, k);
  }

  lemma NegateOf(f: Word -> nat, a: Word)
    requires Counts(f)
    ensures f(0 - a) == (0 - f(a) as int) % MODULUS
  {
    DifferenceOf(f, 0, a);
  }

  /** and so does negation. */
  lemma NegateRight(a: Word)
    ensures Num(Negate(a)) == (0 - Num(a) as int) % 0x1_0000_0000
  {
    NumCounts();
    NegateOf(Num, a);
  }

  lemma TimesFour(f: Word -> nat, v: Word)
    requires Counts(f) && f(2) == 2
    ensures f(Left(v, 2)) == (4 * f(v)) % MODULUS
  {
    LeftOf(f, v, 2, 2);
    assert Power(2) == 4;
  }

  lemma HeaderBits(w: Word)
    ensures HeaderLength(Some(w)) == Some(Left(And(w, 15), 2))
  {
  }

  lemma TwoAndFifteen()
    ensures Num(2) == 2 && Num(15) == 15
  {
    assert OfNum(2) == 2 && OfNum(15) == 15;
    NumOfNum(2);
    NumOfNum(15);
  }

  /** The length of an IPv4 header is four times the low four bits of its first byte. */
  lemma HeaderLengthRight(w: Word, low: nat)
    requires Computes(AluOp.And, Num(w), 15, low)
    ensures HeaderLength(Some(w)).Some? && Num(HeaderLength(Some(w)).value) == (4 * low) % 0x1_0000_0000
  {
    TwoAndFifteen();
    BitwiseRight(w, 15);
    SameBits(low, Num(And(w, 15)));
    HeaderBits(w);
    NumCounts();
    TimesFour(Num, And(w, 15));
  }

  lemma {:induction false} SameBits(m: nat, n: nat)
    requires forall i: nat :: Bit(m, i) <==> Bit(n, i)
    ensures m == n
    decreases m + n
  {
    if m != n {
      assert Bit(m, 0) == Bit(n, 0);
      forall i: nat ensures Bit(m / 2, i) <==> Bit(n / 2, i) {
        assert Bit(m, i + 1) <==> Bit(n, i + 1);
      }
      SameBits(m / 2, n / 2);
    }
  }
}
