/** The codec of lintree.cc as functions from values to bytes and back.

    An encoder yields the bytes it appends.  A decoder reads off the front of a byte sequence; its
    outcome is `Undefined` where the source would read outside its buffer, follow a null pointer,
    or meet what this model leaves out (values of type ring). */
module Codec {
  import opened Bytes
  import opened Options
  import opened Values

  datatype Written = Written(bytes: seq<Byte>, error: bool) {
    function Then(w: Written): Written { Written(bytes + w.bytes, error || w.error) }
  }

  function Plain(bytes: seq<Byte>): Written { Written(bytes, false) }

  datatype Parsed<T> = Undefined | Got(value: T, rest: seq<Byte>, error: bool)

  // ---------------------------------------------------------------------------------- primitives

  function IntsBytes(xs: seq<Int32>): seq<Byte> {
    if xs == [] then [] else IntBytes(xs[0]) + IntsBytes(xs[1..])
  }

  function GetInts(rest: seq<Byte>, n: nat): (r: Parsed<seq<Int32>>)
    ensures r.Got? ==> |r.value| == n && |r.rest| + 4 * n == |rest|
    decreases n
  {
    if n == 0 then Got([], rest, false)
    else if |rest| < 4 then Undefined
    else
      match GetInts(rest[4..], n - 1)
      case Undefined => Undefined
      case Got(xs, tail, e) => Got([IntOf(rest[..4])] + xs, tail, e)
  }

  function GetInt(rest: seq<Byte>): (r: Parsed<Int32>)
    ensures r.Got? ==> |r.rest| + 4 == |rest|
  {
    if |rest| < 4 then Undefined else Got(IntOf(rest[..4]), rest[4..], false)
  }

  function GetLong(rest: seq<Byte>): (r: Parsed<Int64>)
    ensures r.Got? ==> |r.rest| + 8 == |rest|
  {
    if |rest| < 8 then Undefined else Got(LongOf(rest[..8]), rest[8..], false)
  }

  /** A length, and that many bytes. */
  function GetSized(rest: seq<Byte>, extra: nat): (r: Parsed<seq<Byte>>)
    ensures r.Got? ==> |r.rest| + 8 + extra <= |rest|
  {
    if |rest| < 8 then Undefined
    else
      var n := SizeOf(rest[..8]) + extra;
      if |rest| - 8 < n then Undefined else Got(rest[8..][..n], rest[8..][n..], false)
  }

  function SizedBytes(b: seq<Byte>): seq<Byte>
    requires |b| < HUGE
  {
    SizeBytes(|b|) + b
  }

  /** `put_cstring`. */
  function CStringBytes(s: Text): seq<Byte>
    requires TextFits(s)
  {
    SizeBytes(|s|) + (s + [0])
  }

  function CStringsBytes(names: seq<Text>): seq<Byte>
    requires forall s | s in names :: TextFits(s)
  {
    if names == [] then [] else CStringBytes(names[0]) + CStringsBytes(names[1..])
  }

  /** `get_cstring`, copied out by `omStrDup`, which stops at the first NUL of the buffer. */
  function GetCString(rest: seq<Byte>): (r: Parsed<Text>)
    ensures r.Got? ==> |r.rest| < |rest|
  {
    match GetSized(rest, 1)
    case Undefined => Undefined
    case Got(_, tail, e) => Got(UpToNul(rest[8..]), tail, e)
  }

  function GetCStrings(rest: seq<Byte>, n: nat): (r: Parsed<seq<Text>>)
    ensures r.Got? ==> |r.rest| <= |rest| && |r.value| == n
    decreases n
  {
    if n == 0 then Got([], rest, false)
    else
      match GetCString(rest)
      case Undefined => Undefined
      case Got(s, tail, _) =>
        match GetCStrings(tail, n - 1)
        case Undefined => Undefined
        case Got(ss, tail', e) => Got([s] + ss, tail', e)
  }

  /** `encode_mpz` and `decode_mpz`. */
  function MpzBytes(z: int): seq<Byte>
    requires MagnitudeFits(z)
  {
    SizedBytes(BigDigits(Abs(z)))
  }

  function GetMpz(rest: seq<Byte>): (r: Parsed<nat>)
    ensures r.Got? ==> |r.rest| <= |rest|
  {
    match GetSized(rest, 0)
    case Undefined => Undefined
    case Got(b, tail, e) => Got(BigNumber(b), tail, e)
  }

  // -------------------------------------------------------------------- coefficients and polynomials

  function EncodeLongRat(c: Coeff): Written
    requires CoeffFits(c, Q)
  {
    match c
    case Small(v) => Plain(IntBytes(-1) + LongBytes(v))
    case Fraction(s, z, n) => Plain(IntBytes(s) + (MpzBytes(z) + MpzBytes(n)))
    case Big(s, z) => Plain(IntBytes(s) + MpzBytes(z))
  }

  function EncodeCoeff(c: Coeff, cf: Coeffs): Written
    requires CoeffFits(c, cf)
    decreases c
  {
    match cf
    case TransExt(ext) => EncodePoly(c.num, ext).Then(EncodePoly(c.den, ext))
    case AlgExt(ext) => EncodePoly(c.p, ext)
    case Zp(_) => Plain(LongBytes(c.v))
    case Q => EncodeLongRat(c)
    case OtherCoeffs(_) => Written([], true)
  }

  function EncodePoly(p: Poly, r: Ring): Written
    requires PolyFits(p, r)
    decreases p, 1
  {
    Plain(IntBytes(|p|)).Then(EncodeTerms(p, r))
  }

  function EncodeTerms(p: Poly, r: Ring): Written
    requires PolyFits(p, r)
    decreases p, 0
  {
    if p == [] then Plain([])
    else
      EncodeCoeff(p[0].c, r.cf).Then(Plain(IntsBytes([p[0].comp] + p[0].exps))).Then(EncodeTerms(p[1..], r))
  }

  function DecodeLongRat(rest: seq<Byte>): (r: Parsed<Coeff>)
    ensures r.Got? ==> |r.rest| <= |rest|
  {
    match GetInt(rest)
    case Undefined => Undefined
    case Got(subtype, tail, _) =>
      if subtype < 0 then
        match GetLong(tail)
        case Undefined => Undefined
        case Got(v, tail', e) => Got(Small(Immediate(v)), tail', e)
      else
        match GetMpz(tail)
        case Undefined => Undefined
        case Got(z, tail', e) =>
          if subtype >= 2 then Got(Big(subtype, z), tail', e)
          else
            match GetMpz(tail')
            case Undefined => Undefined
            case Got(n, tail'', e') => Got(Fraction(subtype, z, n), tail'', e')
  }

  function DecodeCoeff(rest: seq<Byte>, cf: Coeffs): (r: Parsed<Coeff>)
    ensures r.Got? ==> |r.rest| <= |rest|
    decreases cf, 0, 0
  {
    match cf
    case TransExt(ext) => (
      match DecodePoly(rest, ext)
      case Undefined => Undefined
      case Got(num, tail, e) =>
        match DecodePoly(tail, ext)
        case Undefined => Undefined
        case Got(den, tail', e') => Got(Quotient(num, den), tail', e || e')
    )
    case AlgExt(ext) => (
      match DecodePoly(rest, ext)
      case Undefined => Undefined
      case Got(p, tail, e) => Got(Element(p), tail, e)
    )
    case Zp(_) => (
      match GetLong(rest)
      case Undefined => Undefined
      case Got(v, tail, e) => Got(Residue(v), tail, e)
    )
    case Q => DecodeLongRat(rest)
    case OtherCoeffs(_) => Got(OtherCoeff, rest, true)
  }

  function DecodePoly(rest: seq<Byte>, r: Ring): (o: Parsed<Poly>)
    ensures o.Got? ==> |o.rest| < |rest|
    decreases r, 2, 0
  {
    match GetInt(rest)
    case Undefined => Undefined
    case Got(len, tail, _) => DecodeTerms(tail, r, if len < 0 then 0 else len)
  }

  function DecodeTerm(rest: seq<Byte>, r: Ring): (o: Parsed<Term>)
    ensures o.Got? ==> |o.rest| <= |rest|
    decreases r, 0, 0
  {
    match DecodeCoeff(rest, r.cf)
    case Undefined => Undefined
    case Got(c, tail, e) =>
      match GetInts(tail, 1 + |r.names|)
      case Undefined => Undefined
      case Got(xs, tail', _) => Got(Term(c, xs[0], xs[1..]), tail', e)
  }

  function DecodeTerms(rest: seq<Byte>, r: Ring, n: nat): (o: Parsed<Poly>)
    ensures o.Got? ==> |o.rest| <= |rest|
    decreases r, 1, n
  {
    if n == 0 then Got([], rest, false)
    else
      match DecodeTerm(rest, r)
      case Undefined => Undefined
      case Got(t, tail, e) =>
        match DecodeTerms(tail, r, n - 1)
        case Undefined => Undefined
        case Got(p, tail', e') => Got([t] + p, tail', e || e')
  }

  function EncodePolys(ps: seq<Poly>, r: Ring): Written
    requires forall p | p in ps :: PolyFits(p, r)
  {
    if ps == [] then Plain([]) else EncodePoly(ps[0], r).Then(EncodePolys(ps[1..], r))
  }

  function DecodePolys(rest: seq<Byte>, r: Ring, n: nat): (o: Parsed<seq<Poly>>)
    ensures o.Got? ==> |o.rest| <= |rest|
    decreases n
  {
    if n == 0 then Got([], rest, false)
    else
      match DecodePoly(rest, r)
      case Undefined => Undefined
      case Got(p, tail, e) =>
        match DecodePolys(tail, r, n - 1)
        case Undefined => Undefined
        case Got(ps, tail', e') => Got([p] + ps, tail', e || e')
  }

  function EncodeIdeal(ps: seq<Poly>, r: Ring): Written
    requires PolysFit(ps, r)
  {
    Plain(IntBytes(|ps|)).Then(EncodePolys(ps, r))
  }

  function DecodeIdeal(rest: seq<Byte>, r: Ring): (o: Parsed<seq<Poly>>)
    ensures o.Got? ==> |o.rest| <= |rest|
  {
    match GetInt(rest)
    case Undefined => Undefined
    case Got(n, tail, _) => if n < 0 then Undefined else DecodePolys(tail, r, n)
  }

  // --------------------------------------------------------------------------------------- rings

  function EncodeBlock(b: Block): Written {
    Written(IntsBytes([b.ord, b.first, b.last]) + IntsBytes(b.weights), b.ord in UNSUPPORTED_ORDERS)
  }

  function EncodeBlocks(bs: seq<Block>): Written {
    if bs == [] then Plain([]) else EncodeBlock(bs[0]).Then(EncodeBlocks(bs[1..]))
  }

  /** What stands for the coefficients at the head of a descriptor. */
  function CharOf(cf: Coeffs): Int32 {
    match cf
    case Q => 0
    case Zp(p) => p
    case TransExt(_) => -1
    case AlgExt(_) => -2
    case OtherCoeffs(_) => -3
  }

  /** `encode_ring`, while no ring has been announced. */
  function EncodeRing(r: Ring): Written
    requires RingFits(r)
    decreases r
  {
    Plain(RingHead(r) + CStringsBytes(r.names) + IntBytes(|r.orders|))
      .Then(EncodeBlocks(r.orders))
      .Then(if r.cf.TransExt? || r.cf.AlgExt? then EncodeRing(r.cf.ext) else Plain([]))
      .Then(EncodeQuotient(r))
  }

  function RingHead(r: Ring): seq<Byte>
    requires RingFits(r)
  {
    IntsBytes([CharOf(r.cf), |r.names|]) + if r.cf.OtherCoeffs? then CStringBytes(r.cf.name) else []
  }

  function EncodeQuotient(r: Ring): Written
    requires RingFits(r)
  {
    if r.qideal.None? then Plain(IntBytes(0))
    else Plain(IntBytes(IDEAL_CMD)).Then(EncodeIdeal(r.qideal.value, r))
  }

  function DecodeBlock(rest: seq<Byte>): (o: Parsed<Block>)
    ensures o.Got? ==> |o.rest| <= |rest|
  {
    match GetInts(rest, 3)
    case Undefined => Undefined
    case Got(xs, tail, _) =>
      var b := Block(xs[0], xs[1], xs[2], []);
      match GetInts(tail, Width(b))
      case Undefined => Undefined
      case Got(ws, tail', _) => Got(b.(weights := ws), tail', b.ord in UNSUPPORTED_ORDERS)
  }

  function DecodeBlocks(rest: seq<Byte>, n: nat): (o: Parsed<seq<Block>>)
    ensures o.Got? ==> |o.rest| <= |rest|
    decreases n
  {
    if n == 0 then Got([], rest, false)
    else
      match DecodeBlock(rest)
      case Undefined => Undefined
      case Got(b, tail, e) =>
        match DecodeBlocks(tail, n - 1)
        case Undefined => Undefined
        case Got(bs, tail', e') => Got([b] + bs, tail', e || e')
  }

  /** `nFindCoeffByName`. */
  type Finder = Text -> Option<Coeffs>

  /** `decode_ring_raw`.  A null pointer comes out for a coefficient name that is not known, for
      rings in no variables and for codes that mean nothing. */
  function DecodeRing(find: Finder, rest: seq<Byte>, last: Option<Ring>): (o: Parsed<Option<Ring>>)
    ensures o.Got? ==> |o.rest| <= |rest|
    decreases |rest|, 1
  {
    match GetInts(rest, 2)
    case Undefined => Undefined
    case Got(xs, tail, _) =>
      if xs[0] == -4 then Got(None, tail, false)
      else if xs[0] == -5 then Got(last, tail, false)
      else if xs[0] == -1 || xs[0] == -2 || xs[0] == -3 then
        match GetCString(tail)
        case Undefined => Undefined
        case Got(name, tail', _) =>
          var cf := find(name);
          if cf.None? then Got(None, tail', true)
          else DecodeNamed(find, tail', last, xs[0], xs[1], cf.value)
      else DecodeNamed(find, tail, last, xs[0], xs[1], if xs[0] <= 0 then Q else Zp(xs[0]))
  }

  /** The rest of a descriptor that began with `ch`; `cf` is what is known of the coefficients. */
  function DecodeNamed(find: Finder, rest: seq<Byte>, last: Option<Ring>, ch: Int32, n: Int32, cf: Coeffs):
    (o: Parsed<Option<Ring>>)
    ensures o.Got? ==> |o.rest| <= |rest|
    decreases |rest|, 2
  {
    if n < 0 then Undefined
    else
      match GetCStrings(rest, n)
      case Undefined => Undefined
      case Got(names, tail, _) =>
        match DecodeOrders(tail)
        case Undefined => Undefined
        case Got(orders, tail', e) =>
          if n == 0 then Got(None, tail', e)
          else if ch == -1 || ch == -2 then
            match DecodeRing(find, tail', last)
            case Undefined => Undefined
            case Got(ext, tail'', e') =>
              if ext.None? then Got(None, tail'', e || e')
              else
                var field := if ch == -1 then TransExt(ext.value) else AlgExt(ext.value);
                WithQuotient(tail'', Ring(field, names, orders, None), e || e')
          else if ch < -3 then NoQuotient(tail', e)
          else WithQuotient(tail', Ring(cf, names, orders, None), e)
  }

  function DecodeOrders(rest: seq<Byte>): (o: Parsed<seq<Block>>)
    ensures o.Got? ==> |o.rest| < |rest|
  {
    match GetInt(rest)
    case Undefined => Undefined
    case Got(n, tail, _) => if n < 0 then Undefined else DecodeBlocks(tail, n)
  }

  function WithQuotient(rest: seq<Byte>, r: Ring, e: bool): (o: Parsed<Option<Ring>>)
    ensures o.Got? ==> |o.rest| <= |rest|
  {
    match DecodeQuotient(rest, r)
    case Undefined => Undefined
    case Got(q, tail, e') => Got(Some(q), tail, e || e')
  }

  /** No ring was made; a quotient ideal would have no place. */
  function NoQuotient(rest: seq<Byte>, e: bool): (o: Parsed<Option<Ring>>)
    ensures o.Got? ==> |o.rest| <= |rest|
  {
    match GetInt(rest)
    case Undefined => Undefined
    case Got(flag, tail, _) => if flag == 0 then Got(None, tail, e) else Undefined
  }

  function DecodeQuotient(rest: seq<Byte>, r: Ring): (o: Parsed<Ring>)
    ensures o.Got? ==> |o.rest| <= |rest|
  {
    match GetInt(rest)
    case Undefined => Undefined
    case Got(flag, tail, _) =>
      if flag == 0 then Got(r, tail, false)
      else
        match DecodeIdeal(tail, r)
        case Undefined => Undefined
        case Got(ps, tail', e) => Got(r.(qideal := Some(ps)), tail', e)
  }

  // -------------------------------------------------------------------------------------- values

  /** What encoding appends, and the ring the stream is then known to be about. */
  datatype Encoded = Encoded(written: Written, ring: Option<Ring>)

  /** The ring the numbers of the next value are about: the one both sides know, or the current
      ring, which is announced first. */
  function Active(cur: Ring, last: Option<Ring>): Ring { if last.Some? then last.value else cur }

  function RingPrefix(v: Value, cur: Ring, last: Option<Ring>): Written
    requires last.None? ==> RingFits(cur)
  {
    if NeedsRing(v) && last.None? then Plain(IntBytes(-1)).Then(EncodeRing(cur)) else Plain([])
  }

  /** `encode`. */
  function Encode(v: Value, cur: Ring, last: Option<Ring>): (e: Encoded)
    requires Fits(v, Active(cur, last)) && (last.None? ==> RingFits(cur))
    ensures last.Some? ==> e.ring == last
    ensures e.ring.Some? ==> e.ring.value == Active(cur, last)
    decreases v, 1
  {
    if v.OtherValue? then Encoded(Written([], true), last)
    else
      var known := if NeedsRing(v) then Some(Active(cur, last)) else last;
      var body := EncodeBody(v, cur, known);
      Encoded(RingPrefix(v, cur, last).Then(Plain(IntBytes(Tag(v)))).Then(body.written), body.ring)
  }

  function EncodeBody(v: Value, cur: Ring, last: Option<Ring>): (e: Encoded)
    requires Fits(v, Active(cur, last)) && (last.None? ==> RingFits(cur))
    requires !v.OtherValue? && (NeedsRing(v) ==> last.Some?)
    ensures last.Some? ==> e.ring == last
    ensures e.ring.Some? ==> e.ring.value == Active(cur, last)
    decreases v, 0
  {
    match v
    case Nothing => Encoded(Plain([]), last)
    case IntValue(n) => Encoded(Plain(LongBytes(n)), last)
    case StringValue(s) => Encoded(Plain(SizedBytes(s)), last)
    case DefValue(s) => Encoded(Plain(SizedBytes(s)), last)
    case ListValue(items) =>
      var e := EncodeAll(items, cur, last);
      Encoded(Plain(IntBytes(|items| - 1)).Then(e.written), e.ring)
    case NumberValue(c) => Encoded(EncodeCoeff(c, last.value.cf), last)
    case BigIntValue(c) => Encoded(EncodeCoeff(c, Q), last)
    case IntMatValue(rows, cols, entries) => Encoded(Plain(IntsBytes([rows, cols]) + IntsBytes(entries)), last)
    case PolyValue(p) => Encoded(EncodePoly(p, last.value), last)
    case IdealValue(ps) => Encoded(EncodeIdeal(ps, last.value), last)
    case CommandValue(op, argc, args) =>
      var e := EncodeAll(args, cur, last);
      Encoded(Plain(IntsBytes([op, argc])).Then(e.written), e.ring)
    case SharedValue(_, addr) => Encoded(Plain(SizeBytes(addr)), last)
  }

  function EncodeAll(vs: seq<Value>, cur: Ring, last: Option<Ring>): (e: Encoded)
    requires (forall v | v in vs :: Fits(v, Active(cur, last))) && (last.None? ==> RingFits(cur))
    ensures last.Some? ==> e.ring == last
    ensures e.ring.Some? ==> e.ring.value == Active(cur, last)
    decreases vs, 2
  {
    if vs == [] then Encoded(Plain([]), last)
    else
      var e := Encode(vs[0], cur, last);
      var more := EncodeAll(vs[1..], cur, e.ring);
      Encoded(e.written.Then(more.written), more.ring)
  }

  /** What `Eval` makes of a quoted command or of a name. */
  datatype Evaluated = Evaluated(value: Value, error: bool)

  type Evaluator = Value -> Evaluated

  /** What decoding asks the interpreter for. */
  datatype Host = Host(eval: Evaluator, find: Finder)

  /** The outcome of decoding, and the ring the stream is then known to be about. */
  datatype Decoded<T> = Lost | Decoded(value: T, rest: seq<Byte>, ring: Option<Ring>, error: bool)

  function Lift(p: Parsed<Value>, ring: Option<Ring>): Decoded<Value> {
    match p
    case Undefined => Lost
    case Got(v, rest, e) => Decoded(v, rest, ring, e)
  }

  /** `decode`. */
  function Decode(host: Host, rest: seq<Byte>, last: Option<Ring>): (o: Decoded<Value>)
    ensures o.Decoded? ==> |o.rest| < |rest|
    decreases |rest|, 0, 0
  {
    match GetInt(rest)
    case Undefined => Lost
    case Got(typ, tail, _) =>
      if typ >= 0 then DecodeBody(host, typ, tail, last)
      else
        match DecodeRing(host.find, tail, last)
        case Undefined => Lost
        case Got(ring, tail', e) =>
          match GetInt(tail')
          case Undefined => Lost
          case Got(typ', tail'', _) =>
            match DecodeBody(host, typ', tail'', ring)
            case Lost => Lost
            case Decoded(v, tail''', ring', e') => Decoded(v, tail''', ring', e || e')
  }

  function DecodeBody(host: Host, typ: Int32, rest: seq<Byte>, last: Option<Ring>): (o: Decoded<Value>)
    ensures o.Decoded? ==> |o.rest| <= |rest|
    decreases |rest|, 2, 0
  {
    if typ == LIST_CMD then
      match GetInt(rest)
      case Undefined => Lost
      case Got(n, tail, _) =>
        if n < -1 then Lost
        else
          match DecodeAll(host, tail, last, n + 1)
          case Lost => Lost
          case Decoded(vs, tail', ring, e) => Decoded(ListValue(vs), tail', ring, e)
    else if typ == COMMAND then
      match GetInts(rest, 2)
      case Undefined => Lost
      case Got(xs, tail, _) =>
        match DecodeAll(host, tail, last, ArgCount(xs[1]))
        case Lost => Lost
        case Decoded(vs, tail', ring, e) =>
          var r := host.eval(CommandValue(xs[0], xs[1], vs));
          Decoded(r.value, tail', ring, e || r.error)
    else if typ == DEF_CMD then
      match GetSized(rest, 0)
      case Undefined => Lost
      case Got(s, tail, _) =>
        var r := host.eval(DefValue(UpToNul(s)));
        Decoded(r.value, tail, last, r.error)
    else
      Lift(DecodeLeaf(typ, rest, last), last)
  }

  /** The values without parts that are values. */
  function DecodeLeaf(typ: Int32, rest: seq<Byte>, last: Option<Ring>): (o: Parsed<Value>)
    ensures o.Got? ==> |o.rest| <= |rest|
  {
    if typ == NONE then Got(Nothing, rest, false)
    else if typ == INT_CMD then
      match GetLong(rest)
      case Undefined => Undefined
      case Got(n, tail, e) => Got(IntValue(n), tail, e)
    else if typ == STRING_CMD then
      match GetSized(rest, 0)
      case Undefined => Undefined
      case Got(s, tail, e) => Got(StringValue(UpToNul(s)), tail, e)
    else if typ == BIGINT_CMD then
      match DecodeCoeff(rest, Q)
      case Undefined => Undefined
      case Got(c, tail, e) => Got(BigIntValue(c), tail, e)
    else if typ == INTMAT_CMD then DecodeIntMat(rest)
    else if SharedType(typ) then
      if |rest| < 8 then Undefined else Got(SharedValue(typ, SizeOf(rest[..8])), rest[8..], false)
    else if last.Some? then DecodeWithRing(typ, rest, last.value)
    else Undefined
  }

  function DecodeIntMat(rest: seq<Byte>): (o: Parsed<Value>)
    ensures o.Got? ==> |o.rest| <= |rest|
  {
    match GetInts(rest, 2)
    case Undefined => Undefined
    case Got(xs, tail, _) =>
      if xs[0] < 0 || xs[1] < 0 || xs[0] * xs[1] >= MANY then Undefined
      else
        match GetInts(tail, xs[0] * xs[1])
        case Undefined => Undefined
        case Got(entries, tail', e) => Got(IntMatValue(xs[0], xs[1], entries), tail', e)
  }

  function DecodeWithRing(typ: Int32, rest: seq<Byte>, r: Ring): (o: Parsed<Value>)
    ensures o.Got? ==> |o.rest| <= |rest|
  {
    if typ == NUMBER_CMD then
      match DecodeCoeff(rest, r.cf)
      case Undefined => Undefined
      case Got(c, tail, e) => Got(NumberValue(c), tail, e)
    else if typ == POLY_CMD then
      match DecodePoly(rest, r)
      case Undefined => Undefined
      case Got(p, tail, e) => Got(PolyValue(p), tail, e)
    else if typ == IDEAL_CMD then
      match DecodeIdeal(rest, r)
      case Undefined => Undefined
      case Got(ps, tail, e) => Got(IdealValue(ps), tail, e)
    else Undefined
  }

  function DecodeAll(host: Host, rest: seq<Byte>, last: Option<Ring>, n: nat): (o: Decoded<seq<Value>>)
    ensures o.Decoded? ==> |o.rest| <= |rest|
    decreases |rest|, 1, n
  {
    if n == 0 then Decoded([], rest, last, false)
    else
      match Decode(host, rest, last)
      case Lost => Lost
      case Decoded(v, tail, ring, e) =>
        match DecodeAll(host, tail, ring, n - 1)
        case Lost => Lost
        case Decoded(vs, tail', ring', e') => Decoded([v] + vs, tail', ring', e || e')
  }

  // ------------------------------------------------------------------------------- whole strings

  /** `to_string`: what cannot be shared travels as nothing at all. */
  function ToString(v: Value, cur: Ring): seq<Byte>
    requires Fits(v, cur) && RingFits(cur)
  {
    var e := Encode(v, cur, None);
    if e.written.error then IntBytes(NONE) else e.written.bytes
  }

  /** `from_string`. */
  function FromString(host: Host, s: seq<Byte>): Option<Value> {
    match Decode(host, s, None)
    case Lost => None
    case Decoded(v, _, _, error) => Some(if error then Nothing else v)
  }
}
