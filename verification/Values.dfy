/** What lintree.cc writes and reads: polynomials over towers of coefficient fields, rings, and the
    interpreter values that hold them. */
module Values {
  import opened Bytes
  import opened Options

  // ------------------------------------------------------------------- coefficients, polynomials

  /** The coefficient domains the codec tells apart. */
  datatype Coeffs =
    | Q
    | Zp(p: Int32)
    | TransExt(ext: Ring)
    | AlgExt(ext: Ring)
    | OtherCoeffs(name: Text)

  /** A coefficient.  Over Q it is an immediate integer, a fraction (`s` is 0 or 1) or an
      out-of-line integer (`s` is 2 or more). */
  datatype Coeff =
    | Small(v: Int64)
    | Fraction(s: Int32, z: int, n: int)
    | Big(s: Int32, z: int)
    | Residue(v: Int64)
    | Quotient(num: seq<Term>, den: seq<Term>)
    | Element(p: seq<Term>)
    | OtherCoeff

  datatype Term = Term(c: Coeff, comp: Int32, exps: seq<Int32>)

  type Poly = seq<Term>

  datatype Block = Block(ord: Int32, first: Int32, last: Int32, weights: seq<Int32>)

  /** A ring in `|names|` variables. */
  datatype Ring = Ring(cf: Coeffs, names: seq<Text>, orders: seq<Block>, qideal: Option<seq<seq<Term>>>)

  // ---------------------------------------------------------------------------------- the values

  // The numbers of Singular's token table and of its ring orders are not part of the repository;
  // all that matters is that the tokens are positive and distinct.
  const NONE: Int32 := 301
  const INT_CMD: Int32 := 419
  const STRING_CMD: Int32 := 510
  const DEF_CMD: Int32 := 377
  const LIST_CMD: Int32 := 438
  const NUMBER_CMD: Int32 := 460
  const BIGINT_CMD: Int32 := 359
  const INTMAT_CMD: Int32 := 421
  const POLY_CMD: Int32 := 473
  const IDEAL_CMD: Int32 := 413
  const COMMAND: Int32 := 333
  /** The types that shared.cc registers with the blackbox interface follow the tokens. */
  const FIRST_SHARED: Int32 := 600
  const LAST_SHARED: Int32 := 609

  const WEIGHTED_ORDERS: set<int> := {1, 12, 13, 17, 18, 21}
  const UNSUPPORTED_ORDERS: set<int> := {2, 5, 20, 23}

  datatype Value =
    | Nothing
    | IntValue(n: Int64)
    | StringValue(s: Text)
    | DefValue(name: Text)
    | ListValue(items: seq<Value>)
    | NumberValue(c: Coeff)
    | BigIntValue(c: Coeff)
    | IntMatValue(rows: Int32, cols: Int32, entries: seq<Int32>)
    | PolyValue(p: Poly)
    | IdealValue(polys: seq<Poly>)
    | CommandValue(op: Int32, argc: Int32, args: seq<Value>)
    | SharedValue(typ: Int32, addr: Size)
    | OtherValue(typ: Int32)

  function Tag(v: Value): Int32 {
    match v
    case Nothing => NONE
    case IntValue(_) => INT_CMD
    case StringValue(_) => STRING_CMD
    case DefValue(_) => DEF_CMD
    case ListValue(_) => LIST_CMD
    case NumberValue(_) => NUMBER_CMD
    case BigIntValue(_) => BIGINT_CMD
    case IntMatValue(_, _, _) => INTMAT_CMD
    case PolyValue(_) => POLY_CMD
    case IdealValue(_) => IDEAL_CMD
    case CommandValue(_, _, _) => COMMAND
    case SharedValue(typ, _) => typ
    case OtherValue(typ) => typ
  }

  predicate SharedType(typ: int) { FIRST_SHARED <= typ <= LAST_SHARED }

  /** The types with an encoder and a decoder. */
  predicate Installed(typ: int) {
    SharedType(typ) || typ in {NONE, INT_CMD, STRING_CMD, DEF_CMD, LIST_CMD, NUMBER_CMD, BIGINT_CMD,
                               INTMAT_CMD, POLY_CMD, IDEAL_CMD, COMMAND}
  }

  predicate NeedsRing(v: Value) { v.NumberValue? || v.PolyValue? || v.IdealValue? }

  /** How many arguments of a command are written: with four or more they hang off the first. */
  function ArgCount(argc: int): nat {
    if argc <= 0 then 0 else if argc < 4 then argc else 1
  }

  /** How many weights an order block carries. */
  function Width(b: Block): nat {
    if b.ord in WEIGHTED_ORDERS && b.first <= b.last then b.last - b.first + 1 else 0
  }

  // ------------------------------------------------------- what a well-formed value looks like

  const MANY := 0x8000_0000
  const HUGE := 0x1_0000_0000_0000_0000

  predicate MagnitudeFits(z: int) { |BigDigits(Abs(z))| < HUGE }

  predicate TextFits(s: Text) { 0 !in s && |s| < HUGE - 1 }

  /** `c` is a representation of an element of `cf`. */
  predicate CoeffFits(c: Coeff, cf: Coeffs)
    decreases c
  {
    match cf
    case Q =>
      match c {
        case Small(v) => Immediate(v) == v
        case Fraction(s, z, n) => 0 <= s < 2 && MagnitudeFits(z) && MagnitudeFits(n)
        case Big(s, z) => s >= 2 && MagnitudeFits(z)
        case _ => false
      }
    case Zp(_) => c.Residue?
    case TransExt(ext) => c.Quotient? && PolyFits(c.num, ext) && PolyFits(c.den, ext)
    case AlgExt(ext) => c.Element? && PolyFits(c.p, ext)
    case OtherCoeffs(_) => c.OtherCoeff?
  }

  predicate PolyFits(p: Poly, r: Ring)
    decreases p
  {
    |p| < MANY && forall t | t in p :: |t.exps| == |r.names| && CoeffFits(t.c, r.cf)
  }

  predicate PolysFit(ps: seq<Poly>, r: Ring) {
    |ps| < MANY && forall p | p in ps :: PolyFits(p, r)
  }

  /** What is left of a long after it was stored as an immediate integer, in 62 bits. */
  function Immediate(v: Int64): Int64 {
    Signed(Wrap(v, 0x4000_0000_0000_0000), 0x4000_0000_0000_0000)
  }

  predicate BlockFits(b: Block) { b.ord != 0 && |b.weights| == Width(b) }

  /** A ring in at least one variable. */
  predicate RingFits(r: Ring) {
    && (match r.cf {
          case Q => true
          case Zp(p) => p > 0
          case TransExt(ext) => RingFits(ext)
          case AlgExt(ext) => RingFits(ext)
          case OtherCoeffs(name) => TextFits(name)
        })
    && 0 < |r.names| < MANY && (forall s | s in r.names :: TextFits(s))
    && |r.orders| < MANY && (forall b | b in r.orders :: BlockFits(b))
    && (r.qideal.Some? ==> PolysFit(r.qideal.value, r))
  }

  /** `v` is a value of the interpreter whose numbers and polynomials live in `r`. */
  predicate Fits(v: Value, r: Ring) {
    match v
    case StringValue(s) => TextFits(s)
    case DefValue(s) => TextFits(s)
    case ListValue(items) => |items| <= MANY && forall x | x in items :: Fits(x, r)
    case NumberValue(c) => CoeffFits(c, r.cf)
    case BigIntValue(c) => CoeffFits(c, Q)
    case IntMatValue(rows, cols, entries) => rows >= 0 && cols >= 0 && |entries| == rows * cols < MANY
    case PolyValue(p) => PolyFits(p, r)
    case IdealValue(ps) => PolysFit(ps, r)
    case CommandValue(_, argc, args) => |args| == ArgCount(argc) && forall x | x in args :: Fits(x, r)
    case SharedValue(typ, _) => SharedType(typ)
    case OtherValue(typ) => typ >= 0 && !Installed(typ)
    case _ => true
  }

  // ------------------------------------------------------------ what the codec can represent

  /** Every coefficient that is written is of a supported type. */
  predicate CoeffSupported(c: Coeff) {
    match c
    case OtherCoeff => false
    case Quotient(num, den) => PolySupported(num) && PolySupported(den)
    case Element(p) => PolySupported(p)
    case _ => true
  }

  predicate PolySupported(p: Poly) { forall t | t in p :: CoeffSupported(t.c) }

  predicate RingSupported(r: Ring) {
    && (r.cf.TransExt? || r.cf.AlgExt? ==> RingSupported(r.cf.ext))
    && (forall b | b in r.orders :: b.ord !in UNSUPPORTED_ORDERS)
    && (r.qideal.Some? ==> forall p | p in r.qideal.value :: PolySupported(p))
  }

  predicate Supported(v: Value) {
    match v
    case ListValue(items) => forall x | x in items :: Supported(x)
    case NumberValue(c) => CoeffSupported(c)
    case BigIntValue(c) => CoeffSupported(c)
    case PolyValue(p) => PolySupported(p)
    case IdealValue(ps) => forall p | p in ps :: PolySupported(p)
    case CommandValue(_, _, args) => forall x | x in args :: Supported(x)
    case OtherValue(_) => false
    case _ => true
  }

  /** Whether a ring-dependent value occurs anywhere in `v`. */
  predicate MentionsRing(v: Value) {
    match v
    case ListValue(items) => exists x | x in items :: MentionsRing(x)
    case CommandValue(_, _, args) => exists x | x in args :: MentionsRing(x)
    case _ => NeedsRing(v)
  }

  // --------------------------------------------------------------- what the codec throws away

  /** `mpz_export` drops the sign of out-of-line integers; this is all a round trip loses. */
  function StripCoeff(c: Coeff): Coeff {
    match c
    case Fraction(s, z, n) => Fraction(s, Abs(z), Abs(n))
    case Big(s, z) => Big(s, Abs(z))
    case Quotient(num, den) => Quotient(StripPoly(num), StripPoly(den))
    case Element(p) => Element(StripPoly(p))
    case _ => c
  }

  function StripPoly(p: Poly): (q: Poly)
    ensures |q| == |p|
  {
    if p == [] then [] else [p[0].(c := StripCoeff(p[0].c))] + StripPoly(p[1..])
  }

  function StripPolys(ps: seq<Poly>): (qs: seq<Poly>)
    ensures |qs| == |ps|
  {
    if ps == [] then [] else [StripPoly(ps[0])] + StripPolys(ps[1..])
  }

  function StripRing(r: Ring): Ring {
    if r.qideal.None? then r else r.(qideal := Some(StripPolys(r.qideal.value)))
  }

  function Strip(v: Value): Value {
    match v
    case ListValue(items) => ListValue(StripAll(items))
    case NumberValue(c) => NumberValue(StripCoeff(c))
    case BigIntValue(c) => BigIntValue(StripCoeff(c))
    case PolyValue(p) => PolyValue(StripPoly(p))
    case IdealValue(ps) => IdealValue(StripPolys(ps))
    case CommandValue(op, argc, args) => CommandValue(op, argc, StripAll(args))
    case _ => v
  }

  function StripAll(vs: seq<Value>): (ws: seq<Value>)
    ensures |ws| == |vs|
  {
    if vs == [] then [] else [Strip(vs[0])] + StripAll(vs[1..])
  }

  /** No out-of-line integer of the value is negative. */
  predicate CoeffUnsigned(c: Coeff) {
    match c
    case Fraction(_, z, n) => z >= 0 && n >= 0
    case Big(_, z) => z >= 0
    case Quotient(num, den) => PolyUnsigned(num) && PolyUnsigned(den)
    case Element(p) => PolyUnsigned(p)
    case _ => true
  }

  predicate PolyUnsigned(p: Poly) { forall t | t in p :: CoeffUnsigned(t.c) }

  predicate Unsigned(v: Value) {
    match v
    case ListValue(items) => forall x | x in items :: Unsigned(x)
    case NumberValue(c) => CoeffUnsigned(c)
    case BigIntValue(c) => CoeffUnsigned(c)
    case PolyValue(p) => PolyUnsigned(p)
    case IdealValue(ps) => forall p | p in ps :: PolyUnsigned(p)
    case CommandValue(_, _, args) => forall x | x in args :: Unsigned(x)
    case _ => true
  }

  // ------------------------------------------------ a value is unchanged exactly when unsigned

  lemma {:induction false} StripCoeffKeeps(c: Coeff)
    ensures StripCoeff(c) == c <==> CoeffUnsigned(c)
    decreases c
  {
    match c {
      case Quotient(num, den) =>
        StripPolyKeeps(num);
        StripPolyKeeps(den);
      case Element(p) => StripPolyKeeps(p);
      case _ =>
    }
  }

  lemma {:induction false} StripPolyKeeps(p: Poly)
    ensures StripPoly(p) == p <==> PolyUnsigned(p)
    decreases p
  {
    if p != [] {
      StripCoeffKeeps(p[0].c);
      StripPolyKeeps(p[1..]);
      assert p == [p[0]] + p[1..];
      assert StripPoly(p)[0] == p[0].(c := StripCoeff(p[0].c));
      assert StripPoly(p)[1..] == StripPoly(p[1..]);
    }
  }

  lemma {:induction false} StripPolysKeeps(ps: seq<Poly>)
    ensures StripPolys(ps) == ps <==> forall p | p in ps :: PolyUnsigned(p)
  {
    if ps != [] {
      StripPolyKeeps(ps[0]);
      StripPolysKeeps(ps[1..]);
      assert ps == [ps[0]] + ps[1..];
      assert StripPolys(ps)[0] == StripPoly(ps[0]);
      assert StripPolys(ps)[1..] == StripPolys(ps[1..]);
    }
  }

  /** Only the signs of out-of-line integers are lost. */
  lemma {:induction false} StripKeeps(v: Value)
    ensures Strip(v) == v <==> Unsigned(v)
    decreases v, 0
  {
    match v {
      case ListValue(items) => StripAllKeeps(items);
      case NumberValue(c) => StripCoeffKeeps(c);
      case BigIntValue(c) => StripCoeffKeeps(c);
      case PolyValue(p) => StripPolyKeeps(p);
      case IdealValue(ps) => StripPolysKeeps(ps);
      case CommandValue(_, _, args) => StripAllKeeps(args);
      case _ =>
    }
  }

  lemma {:induction false} StripAllKeeps(vs: seq<Value>)
    ensures StripAll(vs) == vs <==> forall v | v in vs :: Unsigned(v)
    decreases vs, 1
  {
    if vs != [] {
      StripKeeps(vs[0]);
      StripAllKeeps(vs[1..]);
      assert vs == [vs[0]] + vs[1..];
      assert StripAll(vs)[0] == Strip(vs[0]);
      assert StripAll(vs)[1..] == StripAll(vs[1..]);
    }
  }
}
