/** Assembler expressions over a symbol table. */
module Expression {
  import opened Timing

  type Symbols = map<string, int>

  datatype Expr =
    | Lit(value: int)
    | Sym(name: string)
    | Add(l: Expr, r: Expr) | Sub(l: Expr, r: Expr) | Mul(l: Expr, r: Expr)
    | And(l: Expr, r: Expr) | Or(l: Expr, r: Expr)
    | Shl(l: Expr, r: Expr) | Shr(l: Expr, r: Expr)
    | LowByte(e: Expr) | HighByte(e: Expr) | BankByte(e: Expr)
    | CurrentAddr

  function Size(x: int): nat { if x < 0 then -1 - x else x }

  /** Two's-complement conjunction: negative numbers have all high bits set. */
  function BitAnd(x: int, y: int): int
    decreases Size(x) + Size(y)
  {
    if x == 0 || y == 0 then 0
    else if x == -1 then y
    else if y == -1 then x
    else BitAnd(x / 2, y / 2) * 2 + (if x % 2 == 1 && y % 2 == 1 then 1 else 0)
  }

  function BitOr(x: int, y: int): int { -1 - BitAnd(-1 - x, -1 - y) }

  function Apply(e: Expr, x: int, y: int): Option<int>
    requires e.Add? || e.Sub? || e.Mul? || e.And? || e.Or? || e.Shl? || e.Shr?
  {
    match e
    case Add(_, _) => Some(x + y)
    case Sub(_, _) => Some(x - y)
    case Mul(_, _) => Some(x * y)
    case And(_, _) => Some(BitAnd(x, y))
    case Or(_, _) => Some(BitOr(x, y))
    case Shl(_, _) => if 0 <= y < 64 then Some(x * Pow2(y)) else None
    case Shr(_, _) => if 0 <= y < 64 then Some(x / Pow2(y)) else None
  }

  /** None for an undefined symbol, for `*`, and for a shift count that is not 0 to 63. */
  function Eval(s: Symbols, e: Expr): Option<int>
    decreases e
  {
    match e
    case Lit(v) => Some(v)
    case Sym(n) => if n in s then Some(s[n]) else None
    case LowByte(a) => var x := Eval(s, a); if x.Some? then Some(x.value % 0x100) else None
    case HighByte(a) => var x := Eval(s, a); if x.Some? then Some(x.value / 0x100 % 0x100) else None
    case BankByte(a) => var x := Eval(s, a); if x.Some? then Some(x.value / 0x1_0000 % 0x100) else None
    case CurrentAddr => None
    case _ =>
      var x, y := Eval(s, e.l), Eval(s, e.r);
      if x.Some? && y.Some? then Apply(e, x.value, y.value) else None
  }

  function Names(e: Expr): set<string>
    decreases e
  {
    match e
    case Sym(n) => {n}
    case LowByte(a) => Names(a)
    case HighByte(a) => Names(a)
    case BankByte(a) => Names(a)
    case Lit(_) => {}
    case CurrentAddr => {}
    case _ => Names(e.l) + Names(e.r)
  }

  /** `t` has every symbol of `s`, with the same value. */
  predicate Extends(s: Symbols, t: Symbols) {
    forall n :: n in s ==> n in t && t[n] == s[n]
  }

  /** What evaluates keeps its value as the table grows. */
  lemma {:induction false} EvalMonotone(s: Symbols, t: Symbols, e: Expr)
    requires Extends(s, t)
    ensures Eval(s, e).Some? ==> Eval(t, e) == Eval(s, e)
    ensures Names(e) <= s.Keys ==> Eval(t, e) == Eval(s, e)
    decreases e
  {
    hide Apply;
    match e {
      case Lit(_) =>
      case Sym(_) =>
      case CurrentAddr =>
      case LowByte(a) => EvalMonotone(s, t, a);
      case HighByte(a) => EvalMonotone(s, t, a);
      case BankByte(a) => EvalMonotone(s, t, a);
      case _ =>
        EvalMonotone(s, t, e.l);
        EvalMonotone(s, t, e.r);
    }
  }

  // ---- What the operators mean ----

  lemma AndHalves(x: int, y: int)
    ensures BitAnd(x, y) / 2 == BitAnd(x / 2, y / 2)
    ensures BitAnd(x, y) % 2 == 1 <==> x % 2 == 1 && y % 2 == 1
  {
  }

  /** Conjunction bit by bit. */
  lemma {:induction false} BitAndBits(x: int, y: int, k: nat)
    ensures BitSet(BitAnd(x, y), k) <==> BitSet(x, k) && BitSet(y, k)
    decreases k
  {
    hide BitAnd;
    AndHalves(x, y);
    if k > 0 {
      BitAndBits(x / 2, y / 2, k - 1);
    }
  }

  lemma {:induction false} NotBits(x: int, k: nat)
    ensures BitSet(-1 - x, k) <==> !BitSet(x, k)
    decreases k
  {
    if k > 0 {
      assert (-1 - x) / 2 == -1 - x / 2;
      NotBits(x / 2, k - 1);
    }
  }

  /** Disjunction bit by bit. */
  lemma BitOrBits(x: int, y: int, k: nat)
    ensures BitSet(BitOr(x, y), k) <==> BitSet(x, k) || BitSet(y, k)
  {
    hide BitAnd, BitSet;
    NotBits(x, k);
    NotBits(y, k);
    BitAndBits(-1 - x, -1 - y, k);
    NotBits(BitAnd(-1 - x, -1 - y), k);
  }

  /** Two operands that evaluate: the number their arithmetic operator stands for; a shift needs a count below 64. */
  lemma OperatorsMean(s: Symbols, l: Expr, r: Expr)
    requires Eval(s, l).Some? && Eval(s, r).Some?
    ensures var x, y := Eval(s, l).value, Eval(s, r).value;
            && Eval(s, Add(l, r)) == Some(x + y) && Eval(s, Sub(l, r)) == Some(x - y)
               && Eval(s, Mul(l, r)) == Some(x * y)
            && Eval(s, Shl(l, r)) == (if 0 <= y < 64 then Some(x * Pow2(y)) else None)
            && Eval(s, Shr(l, r)) == (if 0 <= y < 64 then Some(x / Pow2(y)) else None)
  {
    hide BitAnd, BitOr;
  }

  /** The logical operators work bit by bit on two's complement numbers. */
  lemma LogicMeans(s: Symbols, l: Expr, r: Expr, k: nat)
    requires Eval(s, l).Some? && Eval(s, r).Some?
    ensures Eval(s, And(l, r)).Some? && Eval(s, Or(l, r)).Some?
    ensures var x, y := Eval(s, l).value, Eval(s, r).value;
            && (BitSet(Eval(s, And(l, r)).value, k) <==> BitSet(x, k) && BitSet(y, k))
            && (BitSet(Eval(s, Or(l, r)).value, k) <==> BitSet(x, k) || BitSet(y, k))
  {
    hide BitAnd, BitOr, BitSet;
    BitAndBits(Eval(s, l).value, Eval(s, r).value, k);
    BitOrBits(Eval(s, l).value, Eval(s, r).value, k);
  }

  /** The byte operators take a value apart, low byte first. */
  lemma BytesMean(s: Symbols, e: Expr)
    ensures Eval(s, LowByte(e)).Some? <==> Eval(s, e).Some?
    ensures Eval(s, HighByte(e)).Some? <==> Eval(s, e).Some?
    ensures Eval(s, BankByte(e)).Some? <==> Eval(s, e).Some?
    ensures Eval(s, e).Some? ==>
              var low, high, bank := Eval(s, LowByte(e)).value, Eval(s, HighByte(e)).value, Eval(s, BankByte(e)).value;
              && 0 <= low < 0x100 && 0 <= high < 0x100 && 0 <= bank < 0x100
              && low + 0x100 * high + 0x1_0000 * bank == Eval(s, e).value % 0x100_0000
  {
    hide BitAnd, Apply;
    if Eval(s, e).Some? { ThreeParts(Eval(s, e).value); }
  }

  lemma ThreeParts(v: int)
    ensures v % 0x100 + 0x100 * (v / 0x100 % 0x100) + 0x1_0000 * (v / 0x1_0000 % 0x100) == v % 0x100_0000
  {
    assert v / 0x1_0000 == v / 0x100 / 0x100;
  }
}
