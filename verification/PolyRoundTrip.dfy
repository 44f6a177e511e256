/** Numbers, polynomials and rings survive a round trip, whatever follows them in the buffer. */
module PolyRoundTrip {
  import opened Bytes
  import opened Values
  import opened Codec

  lemma IntBack(x: Int32, s: seq<Byte>)
    ensures GetInt(IntBytes(x) + s) == Got(x, s, false)
  {
    IntRoundTrip(x);
    assert (IntBytes(x) + s)[..4] == IntBytes(x) && (IntBytes(x) + s)[4..] == s;
  }

  lemma LongBack(x: Int64, s: seq<Byte>)
    ensures GetLong(LongBytes(x) + s) == Got(x, s, false)
  {
    LongRoundTrip(x);
    assert (LongBytes(x) + s)[..8] == LongBytes(x) && (LongBytes(x) + s)[8..] == s;
  }

  lemma {:induction false} IntsBack(xs: seq<Int32>, s: seq<Byte>)
    ensures GetInts(IntsBytes(xs) + s, |xs|) == Got(xs, s, false)
  {
    if xs == [] {
      assert IntsBytes(xs) + s == s;
    } else {
      var tail := IntsBytes(xs[1..]) + s;
      assert IntsBytes(xs) + s == IntBytes(xs[0]) + tail;
      IntBack(xs[0], tail);
      IntsBack(xs[1..], s);
      assert xs == [xs[0]] + xs[1..];
    }
  }

  lemma SizedBack(b: seq<Byte>, s: seq<Byte>)
    requires |b| < HUGE
    ensures GetSized(SizedBytes(b) + s, 0) == Got(b, s, false)
  {
    var all := SizedBytes(b) + s;
    SizeRoundTrip(|b|);
    hide SizeBytes, SizeOf;
    assert all == SizeBytes(|b|) + (b + s);
    assert all[..8] == SizeBytes(|b|) && all[8..] == b + s;
    assert (b + s)[..|b|] == b && (b + s)[|b|..] == s;
  }

  lemma CStringBack(name: Text, s: seq<Byte>)
    requires TextFits(name)
    ensures GetCString(CStringBytes(name) + s) == Got(name, s, false)
  {
    var all := CStringBytes(name) + s;
    SizeRoundTrip(|name|);
    assert all[..8] == SizeBytes(|name|);
    assert all[8..] == name + ([0] + s);
    NoNulInside(name, [0] + s);
    assert all[8..][|name| + 1..] == s;
  }

  lemma {:induction false} CStringsBack(names: seq<Text>, s: seq<Byte>)
    requires forall x | x in names :: TextFits(x)
    ensures GetCStrings(CStringsBytes(names) + s, |names|) == Got(names, s, false)
  {
    hide GetCString, CStringBytes, TextFits;
    if names == [] {
      assert CStringsBytes(names) + s == s;
    } else {
      var tail := CStringsBytes(names[1..]) + s;
      assert CStringsBytes(names) + s == CStringBytes(names[0]) + tail;
      CStringBack(names[0], tail);
      CStringsBack(names[1..], s);
      assert names == [names[0]] + names[1..];
    }
  }

  /** A big integer of either sign is read back as its magnitude, whatever follows it. */
  lemma MpzBack(z: int, s: seq<Byte>)
    requires MagnitudeFits(z)
    ensures GetMpz(MpzBytes(z) + s) == Got(if z < 0 then -z else z, s, false)
  {
    SizedBack(BigDigits(Abs(z)), s);
    BigRoundTrip(Abs(z));
  }

  lemma FractionBack(t: Int32, z: int, n: int, s: seq<Byte>)
    requires 0 <= t < 2 && MagnitudeFits(z) && MagnitudeFits(n)
    ensures DecodeLongRat((IntBytes(t) + (MpzBytes(z) + MpzBytes(n))) + s)
         == Got(Fraction(t, Abs(z), Abs(n)), s, false)
  {
    hide GetInt, GetMpz, MpzBytes, MagnitudeFits, IntBytes;
    var tail := MpzBytes(z) + (MpzBytes(n) + s);
    assert (IntBytes(t) + (MpzBytes(z) + MpzBytes(n))) + s == IntBytes(t) + tail;
    IntBack(t, tail);
    MpzBack(z, MpzBytes(n) + s);
    MpzBack(n, s);
  }

  lemma LongRatBack(c: Coeff, s: seq<Byte>)
    requires CoeffFits(c, Q)
    ensures !EncodeLongRat(c).error
    ensures DecodeLongRat(EncodeLongRat(c).bytes + s) == Got(StripCoeff(c), s, false)
  {
    hide GetInt, GetLong, GetMpz, MpzBytes, MagnitudeFits, Immediate, IntBytes, LongBytes;
    match c {
      case Small(v) =>
        assert EncodeLongRat(c).bytes + s == IntBytes(-1) + (LongBytes(v) + s);
        IntBack(-1, LongBytes(v) + s);
        LongBack(v, s);
      case Fraction(t, z, n) => FractionBack(t, z, n, s);
      case Big(t, z) =>
        assert EncodeLongRat(c).bytes + s == IntBytes(t) + (MpzBytes(z) + s);
        IntBack(t, MpzBytes(z) + s);
        MpzBack(z, s);
    }
  }

  // ------------------------------------------------------------ errors of encoders, exactly

  lemma {:induction false} CoeffError(c: Coeff, cf: Coeffs)
    requires CoeffFits(c, cf)
    ensures EncodeCoeff(c, cf).error <==> !CoeffSupported(c)
    decreases c
  {
    match cf {
      case TransExt(ext) =>
        PolyError(c.num, ext);
        PolyError(c.den, ext);
      case AlgExt(ext) => PolyError(c.p, ext);
      case _ =>
    }
  }

  lemma {:induction false} PolyError(p: Poly, r: Ring)
    requires PolyFits(p, r)
    ensures EncodePoly(p, r).error <==> !PolySupported(p)
    decreases p, 1
  {
    TermsError(p, r);
  }

  lemma {:induction false} TermsError(p: Poly, r: Ring)
    requires PolyFits(p, r)
    ensures EncodeTerms(p, r).error <==> !PolySupported(p)
    decreases p, 0
  {
    if p != [] {
      CoeffError(p[0].c, r.cf);
      TermsError(p[1..], r);
      assert p == [p[0]] + p[1..];
    }
  }

  lemma {:induction false} PolysError(ps: seq<Poly>, r: Ring)
    requires forall p | p in ps :: PolyFits(p, r)
    ensures EncodePolys(ps, r).error <==> exists p | p in ps :: !PolySupported(p)
  {
    hide PolyFits, PolySupported, EncodePoly;
    if ps != [] {
      PolyError(ps[0], r);
      PolysError(ps[1..], r);
      assert ps == [ps[0]] + ps[1..];
    }
  }

  // ------------------------------------------------------------------ over any coefficient tower

  /** Any representable coefficient, over any tower of extensions of Q and Z/p, comes back up to the
      signs of out-of-line integers, and the cursor stops exactly behind it. */
  lemma {:induction false} CoeffBack(c: Coeff, cf: Coeffs, s: seq<Byte>)
    requires CoeffFits(c, cf) && CoeffSupported(c)
    ensures DecodeCoeff(EncodeCoeff(c, cf).bytes + s, cf) == Got(StripCoeff(c), s, false)
    decreases c
  {
    hide EncodePoly, DecodePoly, EncodeLongRat, DecodeLongRat, GetLong, PolyFits, PolySupported, StripPoly;
    match cf {
      case TransExt(ext) =>
        var tail := EncodePoly(c.den, ext).bytes + s;
        assert EncodeCoeff(c, cf).bytes + s == EncodePoly(c.num, ext).bytes + tail;
        PolyBack(c.num, ext, tail);
        PolyBack(c.den, ext, s);
      case AlgExt(ext) => PolyBack(c.p, ext, s);
      case Zp(_) => LongBack(c.v, s);
      case Q => LongRatBack(c, s);
      case OtherCoeffs(_) =>
    }
  }

  /** Polynomials over any tower of coefficient fields round-trip when both sides know the ring. */
  lemma {:induction false} PolyBack(p: Poly, r: Ring, s: seq<Byte>)
    requires PolyFits(p, r) && PolySupported(p)
    ensures DecodePoly(EncodePoly(p, r).bytes + s, r) == Got(StripPoly(p), s, false)
    decreases p, 1
  {
    hide EncodeTerms, DecodeTerms, GetInt;
    var tail := EncodeTerms(p, r).bytes + s;
    assert EncodePoly(p, r).bytes + s == IntBytes(|p|) + tail;
    IntBack(|p|, tail);
    TermsBack(p, r, s);
  }

  lemma {:induction false} TermBack(t: Term, r: Ring, s: seq<Byte>)
    requires |t.exps| == |r.names| && CoeffFits(t.c, r.cf) && CoeffSupported(t.c)
    ensures DecodeTerm(EncodeCoeff(t.c, r.cf).bytes + (IntsBytes([t.comp] + t.exps) + s), r)
         == Got(t.(c := StripCoeff(t.c)), s, false)
    decreases t, 0
  {
    hide EncodeCoeff, DecodeCoeff, IntsBytes, GetInts, CoeffSupported, CoeffFits;
    CoeffBack(t.c, r.cf, IntsBytes([t.comp] + t.exps) + s);
    IntsBack([t.comp] + t.exps, s);
    assert ([t.comp] + t.exps)[1..] == t.exps;
  }

  lemma {:induction false} TermsBack(p: Poly, r: Ring, s: seq<Byte>)
    requires PolyFits(p, r) && PolySupported(p)
    ensures DecodeTerms(EncodeTerms(p, r).bytes + s, r, |p|) == Got(StripPoly(p), s, false)
    decreases p, 0
  {
    hide EncodeCoeff, DecodeTerm, IntsBytes, CoeffSupported, CoeffFits;
    if p == [] {
      assert EncodeTerms(p, r).bytes + s == s;
    } else {
      var t := p[0];
      var tail := EncodeTerms(p[1..], r).bytes + s;
      var words := IntsBytes([t.comp] + t.exps);
      assert EncodeTerms(p, r).bytes + s == EncodeCoeff(t.c, r.cf).bytes + (words + tail);
      TermBack(t, r, tail);
      TermsBack(p[1..], r, s);
    }
  }

  lemma {:induction false} PolysBack(ps: seq<Poly>, r: Ring, s: seq<Byte>)
    requires forall p | p in ps :: PolyFits(p, r) && PolySupported(p)
    ensures DecodePolys(EncodePolys(ps, r).bytes + s, r, |ps|) == Got(StripPolys(ps), s, false)
  {
    hide EncodePoly, DecodePoly, PolyFits, PolySupported, StripPoly;
    if ps == [] {
      assert EncodePolys(ps, r).bytes + s == s;
    } else {
      var tail := EncodePolys(ps[1..], r).bytes + s;
      assert EncodePolys(ps, r).bytes + s == EncodePoly(ps[0], r).bytes + tail;
      PolyBack(ps[0], r, tail);
      PolysBack(ps[1..], r, s);
    }
  }

  lemma IdealBack(ps: seq<Poly>, r: Ring, s: seq<Byte>)
    requires PolysFit(ps, r) && forall p | p in ps :: PolySupported(p)
    ensures DecodeIdeal(EncodeIdeal(ps, r).bytes + s, r) == Got(StripPolys(ps), s, false)
  {
    hide EncodePolys, DecodePolys, PolyFits, PolySupported, GetInt;
    var tail := EncodePolys(ps, r).bytes + s;
    assert EncodeIdeal(ps, r).bytes + s == IntBytes(|ps|) + tail;
    IntBack(|ps|, tail);
    PolysBack(ps, r, s);
  }

  /** Decoding looks at the coefficient field and the number of variables of a ring only. */
  lemma SameShape(rest: seq<Byte>, r: Ring, q: Ring)
    requires q.cf == r.cf && |q.names| == |r.names|
    ensures DecodePoly(rest, q) == DecodePoly(rest, r) && DecodeIdeal(rest, q) == DecodeIdeal(rest, r)
  {
    hide DecodeTerms;
    match GetInt(rest) {
      case Got(n, tail, _) =>
        SameTerms(tail, r, q, if n < 0 then 0 else n);
        if n >= 0 {
          SamePolys(tail, r, q, n);
        }
      case _ =>
    }
  }

  lemma {:induction false} SameTerms(rest: seq<Byte>, r: Ring, q: Ring, n: nat)
    requires q.cf == r.cf && |q.names| == |r.names|
    ensures DecodeTerms(rest, q, n) == DecodeTerms(rest, r, n)
    decreases n
  {
    hide DecodeCoeff, GetInts;
    assert DecodeTerm(rest, q) == DecodeTerm(rest, r);
    if n > 0 && DecodeTerm(rest, r).Got? {
      SameTerms(DecodeTerm(rest, r).rest, r, q, n - 1);
    }
  }

  lemma {:induction false} SamePolys(rest: seq<Byte>, r: Ring, q: Ring, n: nat)
    requires q.cf == r.cf && |q.names| == |r.names|
    ensures DecodePolys(rest, q, n) == DecodePolys(rest, r, n)
    decreases n
  {
    hide DecodeTerms;
    match GetInt(rest) {
      case Got(len, tail, _) => SameTerms(tail, r, q, if len < 0 then 0 else len);
      case _ =>
    }
    assert DecodePoly(rest, q) == DecodePoly(rest, r);
    if n > 0 && DecodePoly(rest, r).Got? {
      SamePolys(DecodePoly(rest, r).rest, r, q, n - 1);
    }
  }
}
