/** The byte format, pinned down by examples and by constructors: the order of bytes and fields, the
    descriptors of rings, and for each kind of value what exactly comes back. */
module WireFormat {
  import opened Bytes
  import opened Options
  import opened Values
  import opened Codec
  import opened PolyRoundTrip
  import opened ValueRoundTrip
  import opened CodecLaws

  // --------------------------------------------------------------------------------- single words

  lemma DigitsOnce(x: nat, n: nat)
    requires n > 0
    ensures Digits(x, n) == [x % 0x100] + Digits(x / 0x100, n - 1)
  {
  }

  lemma SmallDigits(a: Byte, b: Byte, c: Byte, d: Byte)
    ensures Digits(a + 0x100 * (b + 0x100 * (c + 0x100 * d)), 4) == [a, b, c, d]
  {
    var x := a + 0x100 * (b + 0x100 * (c + 0x100 * d));
    assert x / 0x100 == b + 0x100 * (c + 0x100 * d) && x / 0x100 / 0x100 == c + 0x100 * d;
    assert x / 0x100 / 0x100 / 0x100 == d;
    DigitsOnce(x, 4);
    DigitsOnce(x / 0x100, 3);
    DigitsOnce(x / 0x100 / 0x100, 2);
    DigitsOnce(d, 1);
    assert Digits(0, 0) == [] && Digits(d / 0x100, 0) == [];
  }

  lemma WordWraps(u: nat)
    requires u < 0x1_0000_0000
    ensures Wrap(if u < 0x8000_0000 then u else u - 0x1_0000_0000, 0x1_0000_0000) == u
  {
  }

  /** Words are little-endian two's complement: the lowest byte comes first, and the highest of a
      negative number is 128 or more. */
  lemma IntIsLittleEndian(a: Byte, b: Byte, c: Byte, d: Byte)
    ensures var u := a + 0x100 * b + 0x1_0000 * c + 0x100_0000 * d;
      IntBytes(if d < 0x80 then u else u - 0x1_0000_0000) == [a, b, c, d]
  {
    hide Digits, Wrap;
    var u := a + 0x100 * b + 0x1_0000 * c + 0x100_0000 * d;
    assert u == a + 0x100 * (b + 0x100 * (c + 0x100 * d)) && (d < 0x80 <==> u < 0x8000_0000);
    SmallDigits(a, b, c, d);
    WordWraps(u);
  }

  /** The digits of big integers are big-endian and begin with the highest that is not zero. */
  lemma BigIsBigEndian(a: Byte, b: Byte, c: Byte)
    requires a > 0
    ensures BigDigits(0x1_0000 * a + 0x100 * b + c) == [a, b, c]
  {
    var x := 0x1_0000 * a + 0x100 * b + c;
    assert x / 0x100 == 0x100 * a + b && x / 0x100 / 0x100 == a && a / 0x100 == 0;
    assert BigDigits(0) == [];
    assert BigDigits(a) == BigDigits(0) + [a];
    assert BigDigits(0x100 * a + b) == BigDigits(a) + [b];
  }

  // -------------------------------------------------------------------------------------- commands

  /** A command with up to three arguments travels with all of them and is evaluated on them. */
  lemma ArgumentsBack(host: Host, op: Int32, args: seq<Value>, cur: Ring)
    requires |args| <= 3 && RingFits(cur)
    requires forall x | x in args :: Ringless(x) && Fits(x, cur) && Supported(x) && Unsigned(x) && Plainly(x)
    ensures Fits(CommandValue(op, |args|, args), cur)
    ensures var e := host.eval(CommandValue(op, |args|, args));
      FromString(host, ToString(CommandValue(op, |args|, args), cur)) == Some(if e.error then Nothing else e.value)
  {
    hide RingFits, FromString, ToString, Evaluate;
    CommandEvaluated(host, CommandValue(op, |args|, args), cur);
  }

  /** With four and more arguments only the first is part of the value; the count travels as it is. */
  lemma ManyArgumentsBack(host: Host, op: Int32, argc: Int32, x: Value, cur: Ring)
    requires argc >= 4 && RingFits(cur)
    requires Ringless(x) && Fits(x, cur) && Supported(x) && Unsigned(x) && Plainly(x)
    ensures Fits(CommandValue(op, argc, [x]), cur)
    ensures var e := host.eval(CommandValue(op, argc, [x]));
      FromString(host, ToString(CommandValue(op, argc, [x]), cur)) == Some(if e.error then Nothing else e.value)
  {
    hide RingFits, FromString, ToString, Evaluate;
    CommandEvaluated(host, CommandValue(op, argc, [x]), cur);
  }

  lemma CommandEvaluated(host: Host, v: Value, cur: Ring)
    requires v.CommandValue? && Fits(v, cur) && RingFits(cur)
    requires forall x | x in v.args :: Ringless(x) && Supported(x) && Unsigned(x) && Plainly(x)
    ensures var e := host.eval(v);
      FromString(host, ToString(v, cur)) == Some(if e.error then Nothing else e.value)
  {
    hide RingFits, RingSupported, FromString, ToString, Fits;
    MentionsExactly(v);
    StringBack(host, v, cur);
    StripAllKeeps(v.args);
    PlainEvaluateAll(host.eval, v.args);
  }

  /** Arguments that are commands are evaluated first, and an error inside is an error of the whole. */
  lemma InnerFirst(host: Host, op: Int32, inner: Int32, cur: Ring)
    requires RingFits(cur)
    ensures var v := CommandValue(op, 1, [CommandValue(inner, 0, [])]);
      && Fits(v, cur)
      && var first := host.eval(CommandValue(inner, 0, []));
         var e := host.eval(CommandValue(op, 1, [first.value]));
         FromString(host, ToString(v, cur)) == Some(if first.error || e.error then Nothing else e.value)
  {
    hide RingFits, RingSupported, FromString, ToString;
    var first := CommandValue(inner, 0, []);
    var v := CommandValue(op, 1, [first]);
    assert Fits(first, cur) && Unsigned(first) && Supported(first) && Ringless(first) && v.args == [first];
    MentionsExactly(v);
    StripKeeps(v);
    StringBack(host, v, cur);
    InnerEvaluated(host.eval, op, first);
  }

  lemma InnerEvaluated(eval: Evaluator, op: Int32, first: Value)
    requires first.CommandValue? && first.args == []
    ensures var v, r := CommandValue(op, 1, [first]), eval(first);
      var e := eval(CommandValue(op, 1, [r.value]));
      Evaluate(eval, v) == Evaluated(e.value, r.error || e.error)
  {
    NothingEvaluated(eval);
    assert Evaluate(eval, first) == eval(first);
    OneEvaluated(eval, first);
  }

  lemma NothingEvaluated(eval: Evaluator)
    ensures EvaluateAll(eval, []) == ([], false)
  {
  }

  lemma OneEvaluated(eval: Evaluator, v: Value)
    ensures EvaluateAll(eval, [v]) == ([Evaluate(eval, v).value], Evaluate(eval, v).error)
  {
    hide Evaluate;
    NothingEvaluated(eval);
    assert [v][1..] == [];
    assert [Evaluate(eval, v).value] + [] == [Evaluate(eval, v).value];
  }

  /** A list of quoted commands arrives as the list of what they evaluate to. */
  lemma ListEvaluated(host: Host, op: Int32, cur: Ring)
    requires RingFits(cur)
    ensures var v := ListValue([CommandValue(op, 0, [])]);
      && Fits(v, cur)
      && var e := host.eval(CommandValue(op, 0, []));
         FromString(host, ToString(v, cur)) == Some(if e.error then Nothing else ListValue([e.value]))
  {
    hide RingFits, RingSupported, FromString, ToString;
    var first := CommandValue(op, 0, []);
    var v := ListValue([first]);
    assert Fits(first, cur) && Unsigned(first) && Supported(first) && Ringless(first) && v.items == [first];
    MentionsExactly(v);
    StripKeeps(v);
    StringBack(host, v, cur);
    ItemEvaluated(host.eval, first);
  }

  lemma ItemEvaluated(eval: Evaluator, first: Value)
    requires first.CommandValue? && first.args == []
    ensures Evaluate(eval, ListValue([first])) == Evaluated(ListValue([eval(first).value]), eval(first).error)
  {
    NothingEvaluated(eval);
    assert Evaluate(eval, first) == eval(first);
    OneEvaluated(eval, first);
  }

  /** A name is looked up where it is read. */
  lemma NameBack(host: Host, name: Text, cur: Ring)
    requires RingFits(cur) && 0 !in name && |name| < HUGE - 1
    ensures Fits(DefValue(name), cur)
    ensures var e := host.eval(DefValue(name));
      FromString(host, ToString(DefValue(name), cur)) == Some(if e.error then Nothing else e.value)
  {
    hide RingFits, FromString, ToString;
    StringBack(host, DefValue(name), cur);
  }

  // ---------------------------------------------------------------------------------- plain values

  lemma IntBack(host: Host, n: Int64, cur: Ring)
    requires RingFits(cur)
    ensures Fits(IntValue(n), cur) && FromString(host, ToString(IntValue(n), cur)) == Some(IntValue(n))
  {
    hide RingFits, FromString, ToString;
    RinglessBack(host, IntValue(n), cur);
  }

  lemma TextBack(host: Host, t: Text, cur: Ring)
    requires RingFits(cur) && 0 !in t && |t| < HUGE - 1
    ensures Fits(StringValue(t), cur) && FromString(host, ToString(StringValue(t), cur)) == Some(StringValue(t))
  {
    hide RingFits, FromString, ToString;
    RinglessBack(host, StringValue(t), cur);
  }

  lemma MatrixBack(host: Host, rows: Int32, cols: Int32, entries: seq<Int32>, cur: Ring)
    requires RingFits(cur) && rows >= 0 && cols >= 0 && |entries| == rows * cols < MANY
    ensures var v := IntMatValue(rows, cols, entries);
      Fits(v, cur) && FromString(host, ToString(v, cur)) == Some(v)
  {
    hide RingFits, FromString, ToString;
    RinglessBack(host, IntMatValue(rows, cols, entries), cur);
  }

  lemma SharedObjectBack(host: Host, typ: Int32, addr: Size, cur: Ring)
    requires RingFits(cur) && FIRST_SHARED <= typ <= LAST_SHARED
    ensures var v := SharedValue(typ, addr); Fits(v, cur) && FromString(host, ToString(v, cur)) == Some(v)
  {
    hide RingFits, FromString, ToString;
    RinglessBack(host, SharedValue(typ, addr), cur);
  }

  /** Lists of any such values, nested or not. */
  lemma ListComesBack(host: Host, items: seq<Value>, cur: Ring)
    requires RingFits(cur) && |items| <= MANY
    requires forall x | x in items :: Ringless(x) && Fits(x, cur) && Supported(x) && Unsigned(x) && Plainly(x)
    ensures Fits(ListValue(items), cur)
    ensures FromString(host, ToString(ListValue(items), cur)) == Some(ListValue(items))
  {
    hide RingFits, FromString, ToString;
    RinglessBack(host, ListValue(items), cur);
  }

  /** Polynomials over Z/p come back exactly, and so do their components and exponents. */
  lemma ModularPolyBack(host: Host, p: Poly, cur: Ring)
    requires RingFits(cur) && RingSupported(cur) && cur.cf.Zp? && |p| < MANY
    requires forall t | t in p :: t.c.Residue? && |t.exps| == |cur.names|
    ensures Fits(PolyValue(p), cur) && FromString(host, ToString(PolyValue(p), cur)) == Some(PolyValue(p))
  {
    hide RingFits, RingSupported, FromString, ToString;
    ResiduesFit(p, cur);
    hide PolyFits, PolySupported, PolyUnsigned;
    RoundTripExactly(host, PolyValue(p), cur);
  }

  lemma ResiduesFit(p: Poly, cur: Ring)
    requires cur.cf.Zp? && |p| < MANY && forall t | t in p :: t.c.Residue? && |t.exps| == |cur.names|
    ensures PolyFits(p, cur) && PolySupported(p) && PolyUnsigned(p)
  {
    forall t | t in p ensures CoeffFits(t.c, cur.cf) && CoeffSupported(t.c) && CoeffUnsigned(t.c) {
      ResidueFits(t.c, cur.cf);
    }
  }

  lemma ResidueFits(c: Coeff, cf: Coeffs)
    requires c.Residue? && cf.Zp?
    ensures CoeffFits(c, cf) && CoeffSupported(c) && CoeffUnsigned(c)
  {
  }

  // ----------------------------------------------------------------------------- descriptors of rings

  /** A weighted block carries one weight for each of its variables, ... */
  lemma WeightsBack(b: Block, s: seq<Byte>)
    requires b.ord in WEIGHTED_ORDERS && b.ord !in UNSUPPORTED_ORDERS && b.ord != 0
    requires b.first <= b.last && |b.weights| == b.last - b.first + 1
    ensures BlockFits(b) && DecodeBlock(EncodeBlock(b).bytes + s) == Got(b, s, false)
  {
    BlockBack(b, s);
  }

  /** ... and any other block none. */
  lemma PlainBlockBack(ord: Int32, first: Int32, last: Int32, s: seq<Byte>)
    requires ord !in WEIGHTED_ORDERS && ord !in UNSUPPORTED_ORDERS && ord != 0
    ensures var b := Block(ord, first, last, []);
      BlockFits(b) && DecodeBlock(EncodeBlock(b).bytes + s) == Got(b, s, false)
  {
    BlockBack(Block(ord, first, last, []), s);
  }

  /** The codes for no ring and for the last one are each read together with the word behind them. */
  lemma SpecialCodes(find: Finder, n: Int32, last: Option<Ring>, s: seq<Byte>)
    ensures DecodeRing(find, IntsBytes([-4, n]) + s, last) == Got(None, s, false)
    ensures DecodeRing(find, IntsBytes([-5, n]) + s, last) == Got(last, s, false)
  {
    hide IntsBytes, GetInts, DecodeNamed;
    IntsBack([-4, n], s);
    IntsBack([-5, n], s);
  }

  /** A string is cut at the first NUL, and the cursor stops behind all of it nevertheless. */
  lemma StringIsCut(t: Text, u: seq<Byte>, last: Option<Ring>, s: seq<Byte>)
    requires 0 !in t && |t| + 1 + |u| < HUGE
    ensures DecodeLeaf(STRING_CMD, SizedBytes(t + ([0] + u)) + s, last) == Got(StringValue(t), s, false)
  {
    hide GetSized, SizedBytes;
    SizedBack(t + ([0] + u), s);
    NoNulInside(t, [0] + u);
  }

  /** Two domains that are read alike. */
  ghost predicate ReadAlike(cf: Coeffs, df: Coeffs) {
    forall rest: seq<Byte> :: DecodeCoeff(rest, cf) == DecodeCoeff(rest, df)
  }

  lemma {:induction false} TermsAlike(rest: seq<Byte>, r: Ring, q: Ring, n: nat)
    requires ReadAlike(r.cf, q.cf) && |q.names| == |r.names|
    ensures DecodeTerms(rest, q, n) == DecodeTerms(rest, r, n)
    decreases n
  {
    hide DecodeCoeff, GetInts;
    assert DecodeCoeff(rest, q.cf) == DecodeCoeff(rest, r.cf);
    assert DecodeTerm(rest, q) == DecodeTerm(rest, r);
    if n > 0 && DecodeTerm(rest, r).Got? {
      TermsAlike(DecodeTerm(rest, r).rest, r, q, n - 1);
    }
  }

  lemma PolyAlike(rest: seq<Byte>, r: Ring, q: Ring)
    requires ReadAlike(r.cf, q.cf) && |q.names| == |r.names|
    ensures DecodePoly(rest, q) == DecodePoly(rest, r)
  {
    hide DecodeTerms;
    match GetInt(rest) {
      case Got(n, tail, _) => TermsAlike(tail, r, q, if n < 0 then 0 else n);
      case _ =>
    }
  }

  lemma {:induction false} PolysAlike(rest: seq<Byte>, r: Ring, q: Ring, n: nat)
    requires ReadAlike(r.cf, q.cf) && |q.names| == |r.names|
    ensures DecodePolys(rest, q, n) == DecodePolys(rest, r, n)
    decreases n
  {
    hide DecodePoly, ReadAlike;
    PolyAlike(rest, r, q);
    if n > 0 && DecodePoly(rest, r).Got? {
      PolysAlike(DecodePoly(rest, r).rest, r, q, n - 1);
    }
  }

  /** The quotient ideal of the ring below does not matter to the reading of coefficients. */
  lemma ExtensionAlike(ext: Ring)
    ensures ReadAlike(TransExt(ext), TransExt(StripRing(ext))) && ReadAlike(AlgExt(ext), AlgExt(StripRing(ext)))
  {
    hide DecodePoly, DecodeIdeal;
    StripShape(ext);
    forall rest: seq<Byte>
      ensures DecodeCoeff(rest, TransExt(ext)) == DecodeCoeff(rest, TransExt(StripRing(ext)))
      ensures DecodeCoeff(rest, AlgExt(ext)) == DecodeCoeff(rest, AlgExt(StripRing(ext)))
    {
      SameShape(rest, ext, StripRing(ext));
      match DecodePoly(rest, ext) {
        case Got(_, tail, _) => SameShape(tail, ext, StripRing(ext));
        case _ =>
      }
    }
  }

  /** What follows the head of a descriptor over an extension: names, orders, the ring below, and the
      quotient ideal. */
  function ExtensionTail(r: Ring, ext: Ring, s: seq<Byte>): seq<Byte>
    requires RingFits(r) && RingFits(ext)
  {
    CStringsBytes(r.names) + (IntBytes(|r.orders|)
      + (EncodeBlocks(r.orders).bytes + (EncodeRing(ext).bytes + (EncodeQuotient(r).bytes + s))))
  }

  /** The descriptor of a ring over a transcendental or an algebraic extension has all that is needed
      to make the ring.  Its reader would make it, if it did not look for a name of coefficients
      behind the head: from there on the two agree. */
  lemma ExtensionAgrees(find: Finder, r: Ring, ext: Ring, algebraic: bool, last: Option<Ring>, cf: Coeffs, s: seq<Byte>)
    requires RingFits(r) && RingSupported(r) && r.cf == if algebraic then AlgExt(ext) else TransExt(ext)
    requires RingFits(ext) && Announced(find, ext)
    ensures var code := if algebraic then -2 else -1;
      && EncodeRing(r).bytes + s == IntBytes(code) + (IntBytes(|r.names|) + ExtensionTail(r, ext, s))
      && var below := StripRing(ext);
         DecodeNamed(find, ExtensionTail(r, ext, s), last, code, |r.names|, cf)
           == Got(Some(StripRing(r.(cf := if algebraic then AlgExt(below) else TransExt(below)))), s, false)
  {
    hide CStringsBytes, EncodeBlocks, EncodeQuotient, EncodeRing, IntBytes, DecodeNamed, RingSupported;
    hide StripRing, ExtensionTail;
    ExtensionLayout(r, ext, if algebraic then -2 else -1, s);
    ExtensionRead(find, r, ext, algebraic, last, cf, s);
  }

  lemma TwoInts(a: Int32, b: Int32)
    ensures IntsBytes([a, b]) == IntBytes(a) + IntBytes(b)
  {
    hide IntBytes;
    assert IntsBytes([a, b]) == IntBytes(a) + IntsBytes([a, b][1..]) && [a, b][1..] == [b];
    assert IntsBytes([b]) == IntBytes(b) + IntsBytes([b][1..]) && [b][1..] == [];
    assert IntBytes(b) + [] == IntBytes(b);
  }

  lemma ExtensionLayout(r: Ring, ext: Ring, code: Int32, s: seq<Byte>)
    requires RingFits(r) && RingFits(ext) && (r.cf == TransExt(ext) || r.cf == AlgExt(ext))
    requires code == if r.cf.AlgExt? then -2 else -1
    ensures EncodeRing(r).bytes + s == IntBytes(code) + (IntBytes(|r.names|) + ExtensionTail(r, ext, s))
  {
    hide CStringsBytes, EncodeBlocks, EncodeQuotient, EncodeRing, IntBytes, IntsBytes;
    ExtensionBytes(r, s);
    TwoInts(code, |r.names|);
    assert (IntBytes(code) + IntBytes(|r.names|)) + ExtensionTail(r, ext, s)
        == IntBytes(code) + (IntBytes(|r.names|) + ExtensionTail(r, ext, s));
  }

  lemma ExtensionRead(find: Finder, r: Ring, ext: Ring, algebraic: bool, last: Option<Ring>, cf: Coeffs, s: seq<Byte>)
    requires RingFits(r) && RingSupported(r) && r.cf == if algebraic then AlgExt(ext) else TransExt(ext)
    requires RingFits(ext) && Announced(find, ext)
    ensures var below := StripRing(ext);
      DecodeNamed(find, ExtensionTail(r, ext, s), last, if algebraic then -2 else -1, |r.names|, cf)
        == Got(Some(StripRing(r.(cf := if algebraic then AlgExt(below) else TransExt(below)))), s, false)
  {
    hide CStringsBytes, EncodeBlocks, EncodeQuotient, EncodeRing, IntBytes, DecodeOrders, GetCStrings, DecodeQuotient;
    hide DecodeRing, PolysFit, PolySupported, TextFits, BlockFits, StripRing;
    var quotient := EncodeQuotient(r).bytes + s;
    var inner := EncodeRing(ext).bytes + quotient;
    CStringsBack(r.names, IntBytes(|r.orders|) + (EncodeBlocks(r.orders).bytes + inner));
    OrdersBack(r, inner);
    RingBack(find, ext, last, quotient);
    BelowQuotient(r, ext, algebraic, s);
  }

  /** The quotient ideal, read over the ring below as it was read. */
  lemma BelowQuotient(r: Ring, ext: Ring, algebraic: bool, s: seq<Byte>)
    requires RingFits(r) && RingSupported(r) && r.cf == if algebraic then AlgExt(ext) else TransExt(ext)
    ensures var below := StripRing(ext);
      var field := if algebraic then AlgExt(below) else TransExt(below);
      DecodeQuotient(EncodeQuotient(r).bytes + s, Ring(field, r.names, r.orders, None))
        == Got(StripRing(r.(cf := field)), s, false)
  {
    hide DecodeIdeal, EncodeIdeal, EncodeQuotient, GetInt, PolysFit, PolySupported, StripPolys, ReadAlike;
    var below := StripRing(ext);
    var field := if algebraic then AlgExt(below) else TransExt(below);
    var q := Ring(field, r.names, r.orders, None);
    QuotientBack(r, s);
    ExtensionAlike(ext);
    match GetInt(EncodeQuotient(r).bytes + s) {
      case Got(_, tail, _) => IdealAlike(tail, r.(qideal := None), q);
      case _ =>
    }
  }

  lemma IdealAlike(rest: seq<Byte>, r: Ring, q: Ring)
    requires ReadAlike(r.cf, q.cf) && |q.names| == |r.names|
    ensures DecodeIdeal(rest, q) == DecodeIdeal(rest, r)
  {
    hide DecodePolys, ReadAlike;
    match GetInt(rest) {
      case Got(n, tail, _) => if n >= 0 { PolysAlike(tail, r, q, n); }
      case _ =>
    }
  }
}
