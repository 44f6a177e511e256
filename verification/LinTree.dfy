/** The class `LinTree` with its buffer, cursor, error flag and last ring, and the encoders and
    decoders that move them: each is proved to compute the function of `Codec` of the same name. */
module LinTreeClass {
  import opened Bytes
  import opened Options
  import opened Values
  import opened Codec
  import opened PolyRoundTrip
  import opened ValueRoundTrip

  /** `o` behind elements that were read before it. */
  function Behind<T>(xs: seq<T>, e: bool, o: Parsed<seq<T>>): Parsed<seq<T>> {
    match o
    case Undefined => Undefined
    case Got(ys, rest, e') => Got(xs + ys, rest, e || e')
  }

  function BehindAll(xs: seq<Value>, e: bool, o: Decoded<seq<Value>>): Decoded<seq<Value>> {
    match o
    case Lost => Lost
    case Decoded(ys, rest, ring, e') => Decoded(xs + ys, rest, ring, e || e')
  }

  lemma BehindNothing<T>(o: Parsed<seq<T>>)
    ensures Behind([], false, o) == o
  {
    if o.Got? {
      assert [] + o.value == o.value;
    }
  }

  lemma BehindNone(o: Decoded<seq<Value>>)
    ensures BehindAll([], false, o) == o
  {
    if o.Decoded? {
      assert [] + o.value == o.value;
    }
  }

  lemma NextInts(rest: seq<Byte>, xs: seq<Int32>, e: bool, n: nat)
    requires n > 0 && |rest| >= 4
    ensures Behind(xs, e, GetInts(rest, n)) == Behind(xs + [IntOf(rest[..4])], e, GetInts(rest[4..], n - 1))
  {
    if GetInts(rest[4..], n - 1).Got? {
      assert xs + ([IntOf(rest[..4])] + GetInts(rest[4..], n - 1).value)
          == (xs + [IntOf(rest[..4])]) + GetInts(rest[4..], n - 1).value;
    }
  }

  lemma NextTerms(rest: seq<Byte>, r: Ring, xs: Poly, e: bool, n: nat)
    requires n > 0 && DecodeTerm(rest, r).Got?
    ensures var t := DecodeTerm(rest, r);
      Behind(xs, e, DecodeTerms(rest, r, n)) == Behind(xs + [t.value], e || t.error, DecodeTerms(t.rest, r, n - 1))
  {
    hide DecodeTerm;
    var t := DecodeTerm(rest, r);
    if DecodeTerms(t.rest, r, n - 1).Got? {
      assert xs + ([t.value] + DecodeTerms(t.rest, r, n - 1).value)
          == (xs + [t.value]) + DecodeTerms(t.rest, r, n - 1).value;
    }
  }

  lemma NextPolys(rest: seq<Byte>, r: Ring, xs: seq<Poly>, e: bool, n: nat)
    requires n > 0 && DecodePoly(rest, r).Got?
    ensures var p := DecodePoly(rest, r);
      Behind(xs, e, DecodePolys(rest, r, n)) == Behind(xs + [p.value], e || p.error, DecodePolys(p.rest, r, n - 1))
  {
    hide DecodePoly;
    var p := DecodePoly(rest, r);
    if DecodePolys(p.rest, r, n - 1).Got? {
      assert xs + ([p.value] + DecodePolys(p.rest, r, n - 1).value)
          == (xs + [p.value]) + DecodePolys(p.rest, r, n - 1).value;
    }
  }

  lemma NextBlocks(rest: seq<Byte>, xs: seq<Block>, e: bool, n: nat)
    requires n > 0 && DecodeBlock(rest).Got?
    ensures var b := DecodeBlock(rest);
      Behind(xs, e, DecodeBlocks(rest, n)) == Behind(xs + [b.value], e || b.error, DecodeBlocks(b.rest, n - 1))
  {
    hide DecodeBlock;
    var b := DecodeBlock(rest);
    if DecodeBlocks(b.rest, n - 1).Got? {
      assert xs + ([b.value] + DecodeBlocks(b.rest, n - 1).value)
          == (xs + [b.value]) + DecodeBlocks(b.rest, n - 1).value;
    }
  }

  lemma NextCStrings(rest: seq<Byte>, xs: seq<Text>, e: bool, n: nat)
    requires n > 0 && GetCString(rest).Got?
    ensures var s := GetCString(rest);
      Behind(xs, e, GetCStrings(rest, n)) == Behind(xs + [s.value], e, GetCStrings(s.rest, n - 1))
  {
    hide GetCString;
    var s := GetCString(rest);
    if GetCStrings(s.rest, n - 1).Got? {
      assert xs + ([s.value] + GetCStrings(s.rest, n - 1).value)
          == (xs + [s.value]) + GetCStrings(s.rest, n - 1).value;
    }
  }

  lemma NextAll(host: Host, rest: seq<Byte>, last: Option<Ring>, xs: seq<Value>, e: bool, n: nat)
    requires n > 0 && Decode(host, rest, last).Decoded?
    ensures var o := Decode(host, rest, last);
      BehindAll(xs, e, DecodeAll(host, rest, last, n))
        == BehindAll(xs + [o.value], e || o.error, DecodeAll(host, o.rest, o.ring, n - 1))
  {
    hide Decode;
    var o := Decode(host, rest, last);
    if DecodeAll(host, o.rest, o.ring, n - 1).Decoded? {
      assert xs + ([o.value] + DecodeAll(host, o.rest, o.ring, n - 1).value)
          == (xs + [o.value]) + DecodeAll(host, o.rest, o.ring, n - 1).value;
    }
  }

  /** What is appended before the rest of an encoding. */
  lemma AppendRest(memory: seq<Byte>, b: seq<Byte>, rest: seq<Byte>)
    ensures (memory + b) + rest == memory + (b + rest)
  {
  }

  lemma AppendSix(m: seq<Byte>, a: seq<Byte>, b: seq<Byte>, c: seq<Byte>, d: seq<Byte>, e: seq<Byte>, f: seq<Byte>)
    ensures m + a + b + c + d + e + f == m + ((((a + b) + c) + d + e) + f)
  {
  }

  lemma AppendFour(m: seq<Byte>, a: seq<Byte>, b: seq<Byte>, c: seq<Byte>, d: seq<Byte>)
    ensures m + a + b + c + d == m + (((a + b) + c) + d)
    ensures m + c + d == m + (([] + c) + d)
  {
  }

  lemma TermsFirst(p: Poly, r: Ring)
    requires PolyFits(p, r) && p != []
    ensures PolyFits(p[1..], r) && CoeffFits(p[0].c, r.cf)
    ensures EncodeTerms(p, r)
         == Codec.EncodeCoeff(p[0].c, r.cf).Then(Plain(IntsBytes([p[0].comp] + p[0].exps))).Then(EncodeTerms(p[1..], r))
  {
  }

  lemma TwoInts(a: Int32, b: Int32)
    ensures IntsBytes([a, b]) == IntBytes(a) + IntBytes(b)
  {
    hide IntBytes;
    assert IntsBytes([b]) == IntBytes(b) + IntsBytes([]);
  }

  class LinTree {
    var memory: seq<Byte>
    var cursor: nat
    var error: bool
    var lastRing: Option<Ring>

    /** What has not been read yet. */
    ghost function Rest(): seq<Byte>
      reads this
    {
      if cursor <= |memory| then memory[cursor..] else []
    }

    constructor (source: seq<Byte>)
      ensures memory == source && cursor == 0 && !error && lastRing == None
    {
      memory, cursor, error, lastRing := source, 0, false, None;
    }

    /** Exactly `w` was appended, and its error recorded. */
    twostate predicate Wrote(w: Written)
      reads this
    {
      memory == old(memory) + w.bytes && error == (old(error) || w.error)
    }

    /** Exactly what precedes `rest` was read, and the error recorded. */
    twostate predicate Read(rest: seq<Byte>, e: bool)
      reads this
    {
      memory == old(memory) && Rest() == rest && error == (old(error) || e)
    }

    method Clear()
      modifies this
      ensures memory == [] && cursor == 0 && !error && lastRing == None
    {
      memory, cursor, error, lastRing := [], 0, false, None;
    }

    // ------------------------------------------------------------------------------ primitives

    method PutInt(x: Int32)
      modifies this`memory
      ensures Wrote(Plain(IntBytes(x)))
    {
      memory := memory + IntBytes(x);
    }

    method PutLong(x: Int64)
      modifies this`memory
      ensures Wrote(Plain(LongBytes(x)))
    {
      memory := memory + LongBytes(x);
    }

    method PutSized(b: seq<Byte>)
      requires |b| < HUGE
      modifies this`memory
      ensures Wrote(Plain(SizedBytes(b)))
    {
      memory := memory + SizeBytes(|b|);
      memory := memory + b;
    }

    method PutCString(s: Text)
      requires TextFits(s)
      modifies this`memory
      ensures Wrote(Plain(CStringBytes(s)))
    {
      memory := memory + SizeBytes(|s|);
      memory := memory + (s + [0]);
    }

    method GetInt() returns (x: Int32)
      requires Codec.GetInt(Rest()).Got?
      modifies this`cursor
      ensures Codec.GetInt(old(Rest())) == Got(x, Rest(), false)
      ensures x == IntOf(old(Rest())[..4]) && Rest() == old(Rest())[4..]
      ensures cursor >= 4 && cursor <= |memory| && x == IntOf(memory[cursor - 4..cursor])
    {
      assert Rest()[..4] == memory[cursor..cursor + 4];
      x := IntOf(memory[cursor..cursor + 4]);
      cursor := cursor + 4;
    }

    /** The word in front of the cursor, once more. */
    method GetPrevInt() returns (x: Int32)
      requires 4 <= cursor <= |memory|
      ensures x == IntOf(memory[cursor - 4..cursor])
    {
      x := IntOf(memory[cursor - 4..cursor]);
    }

    method GetLong() returns (x: Int64)
      requires Codec.GetLong(Rest()).Got?
      modifies this`cursor
      ensures Codec.GetLong(old(Rest())) == Got(x, Rest(), false)
    {
      assert Rest()[..8] == memory[cursor..cursor + 8];
      x := LongOf(memory[cursor..cursor + 8]);
      cursor := cursor + 8;
    }

    method GetSize() returns (x: Size)
      requires |Rest()| >= 8
      modifies this`cursor
      ensures x == SizeOf(old(Rest())[..8]) && Rest() == old(Rest())[8..] && cursor <= |memory|
    {
      assert Rest()[..8] == memory[cursor..cursor + 8];
      x := SizeOf(memory[cursor..cursor + 8]);
      cursor := cursor + 8;
    }

    method GetBytes(n: nat) returns (b: seq<Byte>)
      requires n <= |Rest()| && cursor <= |memory|
      modifies this`cursor
      ensures b == old(Rest())[..n] && Rest() == old(Rest())[n..]
    {
      b := memory[cursor..cursor + n];
      cursor := cursor + n;
    }

    method GetSized() returns (b: seq<Byte>)
      requires Codec.GetSized(Rest(), 0).Got?
      modifies this`cursor
      ensures Codec.GetSized(old(Rest()), 0) == Got(b, Rest(), false)
    {
      var n := GetSize();
      b := GetBytes(n);
    }

    method GetCString() returns (s: Text)
      requires Codec.GetCString(Rest()).Got?
      modifies this`cursor
      ensures Codec.GetCString(old(Rest())) == Got(s, Rest(), false)
    {
      var n := GetSize();
      s := UpToNul(memory[cursor..]);
      cursor := cursor + n + 1;
    }

    method PutInts(xs: seq<Int32>)
      modifies this`memory
      ensures Wrote(Plain(IntsBytes(xs)))
    {
      var i := 0;
      while i < |xs|
        invariant 0 <= i <= |xs|
        invariant memory + IntsBytes(xs[i..]) == old(memory) + IntsBytes(xs)
      {
        assert xs[i..][1..] == xs[i + 1..];
        assert IntsBytes(xs[i..]) == IntBytes(xs[i]) + IntsBytes(xs[i + 1..]);
        hide IntsBytes, IntBytes;
        AppendRest(memory, IntBytes(xs[i]), IntsBytes(xs[i + 1..]));
        PutInt(xs[i]);
        i := i + 1;
      }
    }

    method GetInts(n: nat) returns (xs: seq<Int32>)
      requires Codec.GetInts(Rest(), n).Got?
      modifies this`cursor
      ensures Codec.GetInts(old(Rest()), n) == Got(xs, Rest(), false)
    {
      xs := [];
      var i := 0;
      BehindNothing(Codec.GetInts(Rest(), n));
      while i < n
        invariant 0 <= i <= n
        invariant Behind(xs, false, Codec.GetInts(Rest(), n - i)) == Codec.GetInts(old(Rest()), n)
      {
        NextInts(Rest(), xs, false, n - i);
        hide Codec.GetInts, Codec.GetInt, IntOf, Behind;
        var x := GetInt();
        xs := xs + [x];
        i := i + 1;
      }
      assert xs + [] == xs;
    }

    method PutCStrings(names: seq<Text>)
      requires forall s | s in names :: TextFits(s)
      modifies this`memory
      ensures Wrote(Plain(CStringsBytes(names)))
    {
      var i := 0;
      while i < |names|
        invariant 0 <= i <= |names|
        invariant memory + CStringsBytes(names[i..]) == old(memory) + CStringsBytes(names)
      {
        assert names[i..][1..] == names[i + 1..];
        assert CStringsBytes(names[i..]) == CStringBytes(names[i]) + CStringsBytes(names[i + 1..]);
        hide CStringsBytes, CStringBytes;
        AppendRest(memory, CStringBytes(names[i]), CStringsBytes(names[i + 1..]));
        PutCString(names[i]);
        i := i + 1;
      }
    }

    method GetCStrings(n: nat) returns (names: seq<Text>)
      requires Codec.GetCStrings(Rest(), n).Got?
      modifies this`cursor
      ensures Codec.GetCStrings(old(Rest()), n) == Got(names, Rest(), false)
    {
      hide Codec.GetCString;
      names := [];
      var i := 0;
      BehindNothing(Codec.GetCStrings(Rest(), n));
      while i < n
        invariant 0 <= i <= n
        invariant Behind(names, false, Codec.GetCStrings(Rest(), n - i)) == Codec.GetCStrings(old(Rest()), n)
      {
        NextCStrings(Rest(), names, false, n - i);
        var s := GetCString();
        names := names + [s];
        i := i + 1;
      }
      assert names + [] == names;
    }

    /** The digits never overrun the buffer that is reserved for them. */
    method EncodeMpz(z: int)
      requires MagnitudeFits(z)
      modifies this`memory
      ensures Wrote(Plain(MpzBytes(z)))
      ensures |old(memory)| <= |memory|
      ensures GetMpz(memory[|old(memory)|..]) == Got(if z < 0 then -z else z, [], false)
    {
      var room := (Bits(Abs(z)) + 7) / 8;
      var digits := BigDigits(Abs(z));
      BufferEstimate(Abs(z));
      assert |digits| <= room;
      PutSized(digits);
      MpzBack(z, []);
      assert memory[|old(memory)|..] == MpzBytes(z) + [];
    }

    method DecodeMpz() returns (x: nat)
      requires GetMpz(Rest()).Got?
      modifies this`cursor
      ensures GetMpz(old(Rest())) == Got(x, Rest(), false)
    {
      var b := GetSized();
      x := BigNumber(b);
    }

    // ------------------------------------------------------------- coefficients and polynomials

    method EncodeLongRat(c: Coeff)
      requires CoeffFits(c, Q)
      modifies this`memory
      ensures Wrote(Codec.EncodeLongRat(c))
    {
      hide MpzBytes, GetMpz, IntBytes, LongBytes, MagnitudeFits, Immediate;
      if c.Small? {
        PutInt(-1);
        PutLong(c.v);
      } else {
        PutInt(c.s);
        if c.s < 2 {
          EncodeMpz(c.z);
          EncodeMpz(c.n);
        } else {
          EncodeMpz(c.z);
        }
      }
    }

    method DecodeLongRat() returns (c: Coeff)
      requires Codec.DecodeLongRat(Rest()).Got?
      modifies this`cursor
      ensures Codec.DecodeLongRat(old(Rest())) == Got(c, Rest(), false)
    {
      hide GetMpz, Immediate;
      var subtype := GetInt();
      if subtype < 0 {
        var v := GetLong();
        c := Small(Immediate(v));
      } else if subtype < 2 {
        var z := DecodeMpz();
        var n := DecodeMpz();
        c := Fraction(subtype, z, n);
      } else {
        var z := DecodeMpz();
        c := Big(subtype, z);
      }
    }

    method EncodeCoeff(c: Coeff, cf: Coeffs)
      requires CoeffFits(c, cf)
      modifies this`memory, this`error
      ensures Wrote(Codec.EncodeCoeff(c, cf))
      decreases c
    {
      hide PolyFits, Codec.EncodePoly, Codec.EncodeLongRat, LongBytes;
      match cf {
        case TransExt(ext) =>
          EncodePoly(c.num, ext);
          EncodePoly(c.den, ext);
        case AlgExt(ext) => EncodePoly(c.p, ext);
        case Zp(_) => PutLong(c.v);
        case Q => EncodeLongRat(c);
        case OtherCoeffs(_) => error := true;
      }
    }

    method EncodePoly(p: Poly, r: Ring)
      requires PolyFits(p, r)
      modifies this`memory, this`error
      ensures Wrote(Codec.EncodePoly(p, r))
      decreases p
    {
      hide CoeffFits, Codec.EncodeCoeff, IntBytes, IntsBytes;
      PutInt(|p|);
      var i := 0;
      while i < |p|
        invariant 0 <= i <= |p| && PolyFits(p[i..], r)
        invariant memory + EncodeTerms(p[i..], r).bytes == old(memory) + Codec.EncodePoly(p, r).bytes
        invariant (error || EncodeTerms(p[i..], r).error) == (old(error) || Codec.EncodePoly(p, r).error)
      {
        assert p[i..][1..] == p[i + 1..] && p[i..][0] == p[i];
        TermsFirst(p[i..], r);
        hide EncodeTerms, PolyFits, Codec.EncodePoly;
        var t := p[i];
        ghost var w := Codec.EncodeCoeff(t.c, r.cf).Then(Plain(IntsBytes([t.comp] + t.exps)));
        AppendRest(memory, w.bytes, EncodeTerms(p[i + 1..], r).bytes);
        EncodeTerm(t, r);
        i := i + 1;
      }
    }

    method EncodeTerm(t: Term, r: Ring)
      requires CoeffFits(t.c, r.cf)
      modifies this`memory, this`error
      ensures Wrote(Codec.EncodeCoeff(t.c, r.cf).Then(Plain(IntsBytes([t.comp] + t.exps))))
      decreases t
    {
      hide CoeffFits, Codec.EncodeCoeff, IntsBytes;
      EncodeCoeff(t.c, r.cf);
      PutInts([t.comp] + t.exps);
    }

    method DecodeCoeff(cf: Coeffs) returns (c: Coeff)
      requires Codec.DecodeCoeff(Rest(), cf).Got?
      modifies this`cursor, this`error
      ensures var o := Codec.DecodeCoeff(old(Rest()), cf); c == o.value && Read(o.rest, o.error)
      decreases cf, 0
    {
      hide Codec.DecodePoly, Codec.DecodeLongRat;
      match cf {
        case TransExt(ext) =>
          var num := DecodePoly(ext);
          var den := DecodePoly(ext);
          c := Quotient(num, den);
        case AlgExt(ext) =>
          var p := DecodePoly(ext);
          c := Element(p);
        case Zp(_) =>
          var v := GetLong();
          c := Residue(v);
        case Q => c := DecodeLongRat();
        case OtherCoeffs(_) =>
          error := true;
          c := OtherCoeff;
      }
    }

    method DecodeTerm(r: Ring) returns (t: Term)
      requires Codec.DecodeTerm(Rest(), r).Got?
      modifies this`cursor, this`error
      ensures var o := Codec.DecodeTerm(old(Rest()), r); t == o.value && Read(o.rest, o.error)
      decreases r, 0
    {
      hide Codec.DecodeCoeff;
      var c := DecodeCoeff(r.cf);
      var xs := GetInts(1 + |r.names|);
      t := Term(c, xs[0], xs[1..]);
    }

    method DecodePoly(r: Ring) returns (p: Poly)
      requires Codec.DecodePoly(Rest(), r).Got?
      modifies this`cursor, this`error
      ensures var o := Codec.DecodePoly(old(Rest()), r); p == o.value && Read(o.rest, o.error)
      decreases r, 1
    {
      hide Codec.DecodeTerm;
      var len := GetInt();
      p := [];
      var l := 0;
      ghost var all := DecodeTerms(Rest(), r, if len < 0 then 0 else len);
      ghost var e := false;
      BehindNothing(all);
      while l < len
        invariant 0 <= l && (len >= 0 ==> l <= len)
        invariant error == (old(error) || e)
        invariant Behind(p, e, DecodeTerms(Rest(), r, if len < 0 then 0 else len - l)) == all
      {
        ghost var rest := Rest();
        NextTerms(rest, r, p, e, len - l);
        var t := DecodeTerm(r);
        e := e || Codec.DecodeTerm(rest, r).error;
        p := p + [t];
        l := l + 1;
      }
      assert p + [] == p;
    }

    method EncodeIdeal(ps: seq<Poly>, r: Ring)
      requires PolysFit(ps, r)
      modifies this`memory, this`error
      ensures Wrote(Codec.EncodeIdeal(ps, r))
    {
      hide PolyFits, Codec.EncodePoly, IntBytes;
      PutInt(|ps|);
      var i := 0;
      while i < |ps|
        invariant 0 <= i <= |ps|
        invariant memory + EncodePolys(ps[i..], r).bytes == old(memory) + Codec.EncodeIdeal(ps, r).bytes
        invariant (error || EncodePolys(ps[i..], r).error) == (old(error) || Codec.EncodeIdeal(ps, r).error)
      {
        assert ps[i..][1..] == ps[i + 1..];
        assert EncodePolys(ps[i..], r) == Codec.EncodePoly(ps[i], r).Then(EncodePolys(ps[i + 1..], r));
        hide EncodePolys, Codec.EncodeIdeal;
        AppendRest(memory, Codec.EncodePoly(ps[i], r).bytes, EncodePolys(ps[i + 1..], r).bytes);
        EncodePoly(ps[i], r);
        i := i + 1;
      }
    }

    method DecodeIdeal(r: Ring) returns (ps: seq<Poly>)
      requires Codec.DecodeIdeal(Rest(), r).Got?
      modifies this`cursor, this`error
      ensures var o := Codec.DecodeIdeal(old(Rest()), r); ps == o.value && Read(o.rest, o.error)
    {
      hide Codec.DecodePoly;
      var n := GetInt();
      ps := [];
      var i := 0;
      ghost var all := DecodePolys(Rest(), r, n);
      ghost var e := false;
      BehindNothing(all);
      while i < n
        invariant 0 <= i <= n
        invariant error == (old(error) || e)
        invariant Behind(ps, e, DecodePolys(Rest(), r, n - i)) == all
      {
        ghost var rest := Rest();
        NextPolys(rest, r, ps, e, n - i);
        var p := DecodePoly(r);
        e := e || Codec.DecodePoly(rest, r).error;
        ps := ps + [p];
        i := i + 1;
      }
      assert ps + [] == ps;
    }

    // ---------------------------------------------------------------------------------- rings

    method EncodeBlocks(bs: seq<Block>)
      modifies this`memory, this`error
      ensures Wrote(Codec.EncodeBlocks(bs))
    {
      hide IntsBytes;
      var i := 0;
      while i < |bs|
        invariant 0 <= i <= |bs|
        invariant memory + Codec.EncodeBlocks(bs[i..]).bytes == old(memory) + Codec.EncodeBlocks(bs).bytes
        invariant (error || Codec.EncodeBlocks(bs[i..]).error) == (old(error) || Codec.EncodeBlocks(bs).error)
      {
        assert bs[i..][1..] == bs[i + 1..];
        assert Codec.EncodeBlocks(bs[i..]) == Codec.EncodeBlock(bs[i]).Then(Codec.EncodeBlocks(bs[i + 1..]));
        hide Codec.EncodeBlocks, Codec.EncodeBlock;
        AppendRest(memory, Codec.EncodeBlock(bs[i]).bytes, Codec.EncodeBlocks(bs[i + 1..]).bytes);
        EncodeBlock(bs[i]);
        i := i + 1;
      }
    }

    method EncodeBlock(b: Block)
      modifies this`memory, this`error
      ensures Wrote(Codec.EncodeBlock(b))
    {
      hide IntsBytes;
      PutInts([b.ord, b.first, b.last]);
      PutInts(b.weights);
      if b.ord in UNSUPPORTED_ORDERS {
        error := true;
      }
    }

    method DecodeBlock() returns (b: Block)
      requires Codec.DecodeBlock(Rest()).Got?
      modifies this`cursor, this`error
      ensures var o := Codec.DecodeBlock(old(Rest())); b == o.value && Read(o.rest, o.error)
    {
      var xs := GetInts(3);
      b := Block(xs[0], xs[1], xs[2], []);
      var ws := GetInts(Width(b));
      if b.ord in UNSUPPORTED_ORDERS {
        error := true;
      }
      b := b.(weights := ws);
    }

    method DecodeBlocks(n: nat) returns (bs: seq<Block>)
      requires Codec.DecodeBlocks(Rest(), n).Got?
      modifies this`cursor, this`error
      ensures var o := Codec.DecodeBlocks(old(Rest()), n); bs == o.value && Read(o.rest, o.error)
    {
      hide Codec.DecodeBlock;
      bs := [];
      var i := 0;
      ghost var e := false;
      BehindNothing(Codec.DecodeBlocks(Rest(), n));
      while i < n
        invariant 0 <= i <= n
        invariant error == (old(error) || e)
        invariant Behind(bs, e, Codec.DecodeBlocks(Rest(), n - i)) == Codec.DecodeBlocks(old(Rest()), n)
      {
        ghost var rest := Rest();
        NextBlocks(rest, bs, e, n - i);
        var b := DecodeBlock();
        e := e || Codec.DecodeBlock(rest).error;
        bs := bs + [b];
        i := i + 1;
      }
      assert bs + [] == bs;
    }

    method EncodeRing(r: Ring)
      requires RingFits(r)
      modifies this`memory, this`error
      ensures Wrote(Codec.EncodeRing(r))
      decreases r, 1
    {
      hide PolysFit, EncodeQuotient, Codec.EncodeBlocks, IntBytes, CStringsBytes, RingHead, BlockFits, TextFits;
      AppendSix(memory, RingHead(r), CStringsBytes(r.names), IntBytes(|r.orders|), Codec.EncodeBlocks(r.orders).bytes,
                if r.cf.TransExt? || r.cf.AlgExt? then Codec.EncodeRing(r.cf.ext).bytes else [],
                EncodeQuotient(r).bytes);
      PutRingHead(r);
      PutCStrings(r.names);
      PutInt(|r.orders|);
      EncodeBlocks(r.orders);
      EncodeExtension(r);
      EncodeQuotientIdeal(r);
    }

    method PutRingHead(r: Ring)
      requires RingFits(r)
      modifies this`memory
      ensures Wrote(Plain(RingHead(r)))
    {
      hide IntBytes, CStringBytes, BlockFits, PolysFit;
      PutInt(CharOf(r.cf));
      PutInt(|r.names|);
      TwoInts(CharOf(r.cf), |r.names|);
      if r.cf.OtherCoeffs? {
        PutCString(r.cf.name);
      }
    }

    method EncodeExtension(r: Ring)
      requires RingFits(r)
      modifies this`memory, this`error
      ensures Wrote(if r.cf.TransExt? || r.cf.AlgExt? then Codec.EncodeRing(r.cf.ext) else Plain([]))
      decreases r, 0
    {
      hide Codec.EncodeRing;
      if r.cf.TransExt? || r.cf.AlgExt? {
        EncodeRing(r.cf.ext);
      }
    }

    method EncodeQuotientIdeal(r: Ring)
      requires RingFits(r)
      modifies this`memory, this`error
      ensures Wrote(EncodeQuotient(r))
    {
      hide PolysFit, Codec.EncodeIdeal, IntBytes, BlockFits, TextFits;
      if r.qideal.Some? {
        PutInt(IDEAL_CMD);
        EncodeIdeal(r.qideal.value, r);
      } else {
        PutInt(0);
      }
    }

    /** `decode_ring_raw`; it records the ring before it reads the quotient ideal. */
    method DecodeRingRaw(find: Finder) returns (ring: Option<Ring>)
      requires DecodeRing(find, Rest(), lastRing).Got?
      modifies this`cursor, this`error, this`lastRing
      ensures var o := DecodeRing(find, old(Rest()), old(lastRing)); ring == o.value && Read(o.rest, o.error)
      decreases |Rest()|, 1
    {
      hide Codec.GetInts, Codec.GetCString, DecodeNamed;
      var head := GetInts(2);
      if head[0] == -4 {
        return None;
      }
      if head[0] == -5 {
        return lastRing;
      }
      var cf := if head[0] <= 0 then Q else Zp(head[0]);
      if head[0] == -1 || head[0] == -2 || head[0] == -3 {
        var name := GetCString();
        var found := find(name);
        if found.None? {
          error := true;
          return None;
        }
        cf := found.value;
      }
      ring := DecodeNamedRing(find, head[0], head[1], cf);
    }

    method DecodeNamedRing(find: Finder, ch: Int32, n: Int32, cf: Coeffs) returns (ring: Option<Ring>)
      requires DecodeNamed(find, Rest(), lastRing, ch, n, cf).Got?
      modifies this`cursor, this`error, this`lastRing
      ensures var o := DecodeNamed(find, old(Rest()), old(lastRing), ch, n, cf);
        ring == o.value && Read(o.rest, o.error)
      decreases |Rest()|, 2
    {
      hide Codec.GetCStrings, DecodeOrders, DecodeQuotient, DecodeRing, Codec.GetInt, IntOf;
      var names := GetCStrings(n);
      var orders := DecodeBlockList();
      if n == 0 {
        return None;
      }
      var field := cf;
      if ch == -1 || ch == -2 {
        var ext := DecodeRingRaw(find);
        if ext.None? {
          return None;
        }
        field := if ch == -1 then TransExt(ext.value) else AlgExt(ext.value);
      }
      if ch < -3 {
        lastRing := None;
        var flag := GetInt();
        return None;
      }
      var r := Ring(field, names, orders, None);
      lastRing := Some(r);
      r := DecodeQuotientIdeal(r);
      ring := Some(r);
    }

    method DecodeBlockList() returns (orders: seq<Block>)
      requires DecodeOrders(Rest()).Got?
      modifies this`cursor, this`error
      ensures var o := DecodeOrders(old(Rest())); orders == o.value && Read(o.rest, o.error)
    {
      hide Codec.DecodeBlocks;
      var n := GetInt();
      orders := DecodeBlocks(n);
    }

    method DecodeQuotientIdeal(r: Ring) returns (q: Ring)
      requires DecodeQuotient(Rest(), r).Got?
      modifies this`cursor, this`error
      ensures var o := DecodeQuotient(old(Rest()), r); q == o.value && Read(o.rest, o.error)
    {
      hide Codec.DecodeIdeal;
      q := r;
      var flag := GetInt();
      if flag != 0 {
        var ps := DecodeIdeal(r);
        q := r.(qideal := Some(ps));
      }
    }

    // --------------------------------------------------------------------------------- values

    method Encode(v: Value, cur: Ring)
      requires Fits(v, Active(cur, lastRing)) && (lastRing.None? ==> RingFits(cur))
      modifies this`memory, this`error, this`lastRing
      ensures var e := Codec.Encode(v, cur, old(lastRing)); Wrote(e.written) && lastRing == e.ring
      decreases v, 2
    {
      hide Fits, RingFits, Codec.EncodeRing, Codec.EncodeBody, IntBytes, Tag;
      if !v.OtherValue? {
        ghost var known := if NeedsRing(v) then Some(Active(cur, lastRing)) else lastRing;
        AppendFour(memory, IntBytes(-1), if lastRing.None? then Codec.EncodeRing(cur).bytes else [],
                   IntBytes(Tag(v)), Codec.EncodeBody(v, cur, known).written.bytes);
        if NeedsRing(v) && lastRing.None? {
          PutInt(-1);
          EncodeRing(cur);
          lastRing := Some(cur);
        }
        PutInt(Tag(v));
        EncodeBody(v, cur);
      } else {
        error := true;
      }
    }

    method EncodeBody(v: Value, cur: Ring)
      requires Fits(v, Active(cur, lastRing)) && (lastRing.None? ==> RingFits(cur))
      requires !v.OtherValue? && (NeedsRing(v) ==> lastRing.Some?)
      modifies this`memory, this`error, this`lastRing
      ensures var e := Codec.EncodeBody(v, cur, old(lastRing)); Wrote(e.written) && lastRing == e.ring
      decreases v, 1
    {
      hide RingFits, PolysFit, PolyFits, CoeffFits, IntBytes, IntsBytes, SizedBytes, LongBytes;
      hide Codec.EncodeCoeff, Codec.EncodePoly, Codec.EncodeIdeal, Codec.EncodeAll;
      match v {
        case Nothing =>
        case IntValue(n) => PutLong(n);
        case StringValue(s) => PutSized(s);
        case DefValue(s) => PutSized(s);
        case ListValue(_) => EncodeList(v, cur);
        case NumberValue(c) => EncodeCoeff(c, lastRing.value.cf);
        case BigIntValue(c) => EncodeCoeff(c, Q);
        case IntMatValue(rows, cols, entries) =>
          EncodeIntMat(rows, cols, entries);
        case PolyValue(p) => EncodePoly(p, lastRing.value);
        case IdealValue(ps) => EncodeIdeal(ps, lastRing.value);
        case CommandValue(_, _, _) => EncodeCommand(v, cur);
        case SharedValue(_, addr) => memory := memory + SizeBytes(addr);
      }
    }

    method EncodeIntMat(rows: Int32, cols: Int32, entries: seq<Int32>)
      modifies this`memory
      ensures Wrote(Plain(IntsBytes([rows, cols]) + IntsBytes(entries)))
    {
      PutInts([rows, cols]);
      PutInts(entries);
    }

    /** What the elements `vs` still have to add. */
    ghost predicate StillToWrite(vs: seq<Value>, cur: Ring, memory0: seq<Byte>, error0: bool, e: Encoded)
      requires (forall v | v in vs :: Fits(v, Active(cur, lastRing))) && (lastRing.None? ==> RingFits(cur))
      reads this
    {
      var rest := EncodeAll(vs, cur, lastRing);
      && memory + rest.written.bytes == memory0 + e.written.bytes
      && (error || rest.written.error) == (error0 || e.written.error)
      && rest.ring == e.ring
    }

    /** Writes the first of the remaining elements. */
    method EncodeNext(v: Value, ghost vs: seq<Value>, cur: Ring,
                      ghost memory0: seq<Byte>, ghost error0: bool, ghost e: Encoded)
      requires (forall v | v in vs :: Fits(v, Active(cur, lastRing))) && (lastRing.None? ==> RingFits(cur))
      requires vs != [] && v == vs[0] && StillToWrite(vs, cur, memory0, error0, e)
      modifies this`memory, this`error, this`lastRing
      ensures (forall v | v in vs[1..] :: Fits(v, Active(cur, lastRing))) && (lastRing.None? ==> RingFits(cur))
      ensures StillToWrite(vs[1..], cur, memory0, error0, e)
      decreases v, 3
    {
      hide Fits, RingFits, Codec.Encode;
      Encode(v, cur);
    }

    method EncodeList(v: Value, cur: Ring)
      requires v.ListValue? && Fits(v, Active(cur, lastRing)) && (lastRing.None? ==> RingFits(cur))
      modifies this`memory, this`error, this`lastRing
      ensures var e := Codec.EncodeBody(v, cur, old(lastRing)); Wrote(e.written) && lastRing == e.ring
      decreases v, 0
    {
      hide RingFits, IntBytes, Codec.Encode;
      var items := v.items;
      ghost var e := Codec.EncodeBody(v, cur, lastRing);
      PutInt(|items| - 1);
      var i := 0;
      while i <= |items| - 1
        invariant 0 <= i <= |items|
        invariant (forall x | x in items[i..] :: Fits(x, Active(cur, lastRing))) && (lastRing.None? ==> RingFits(cur))
        invariant StillToWrite(items[i..], cur, old(memory), old(error), e)
      {
        assert items[i..][1..] == items[i + 1..];
        EncodeNext(items[i], items[i..], cur, old(memory), old(error), e);
        i := i + 1;
      }
    }

    method EncodeCommand(v: Value, cur: Ring)
      requires v.CommandValue? && Fits(v, Active(cur, lastRing)) && (lastRing.None? ==> RingFits(cur))
      modifies this`memory, this`error, this`lastRing
      ensures var e := Codec.EncodeBody(v, cur, old(lastRing)); Wrote(e.written) && lastRing == e.ring
      decreases v, 0
    {
      hide RingFits, IntsBytes, Codec.Encode, CoeffFits, PolyFits, PolysFit, TextFits;
      var args := v.args;
      ghost var e := Codec.EncodeBody(v, cur, lastRing);
      PutInts([v.op, v.argc]);
      EncodeArguments(v.argc, args, cur, old(memory), old(error), e);
    }

    /** One argument, two, three, or only the first of four and more. */
    method EncodeArguments(argc: Int32, args: seq<Value>, cur: Ring,
                           ghost memory0: seq<Byte>, ghost error0: bool, ghost e: Encoded)
      requires |args| == ArgCount(argc)
      requires (forall v | v in args :: Fits(v, Active(cur, lastRing))) && (lastRing.None? ==> RingFits(cur))
      requires StillToWrite(args, cur, memory0, error0, e)
      modifies this`memory, this`error, this`lastRing
      ensures lastRing.None? ==> RingFits(cur)
      ensures StillToWrite([], cur, memory0, error0, e)
      decreases args, 3
    {
      hide RingFits, Fits, StillToWrite;
      ghost var rest := args;
      if argc >= 1 {
        EncodeNext(args[0], rest, cur, memory0, error0, e);
        rest := rest[1..];
      }
      if argc < 4 {
        if argc >= 2 {
          EncodeNext(args[1], rest, cur, memory0, error0, e);
          rest := rest[1..];
        }
        if argc >= 3 {
          EncodeNext(args[2], rest, cur, memory0, error0, e);
          rest := rest[1..];
        }
      }
      assert rest == [];
    }

    method Decode(host: Host) returns (v: Value)
      requires Codec.Decode(host, Rest(), lastRing).Decoded?
      modifies this`cursor, this`error, this`lastRing
      ensures var o := Codec.Decode(host, old(Rest()), old(lastRing));
        v == o.value && Read(o.rest, o.error) && lastRing == o.ring
      decreases |Rest()|, 0
    {
      hide DecodeRing, Codec.DecodeBody, Codec.GetInt, IntOf;
      var typ := GetInt();
      if typ < 0 {
        var ring := DecodeRingRaw(host.find);
        lastRing := ring;
        typ := GetInt();
      }
      v := DecodeBody(host, typ);
    }

    method DecodeBody(host: Host, typ: Int32) returns (v: Value)
      requires Codec.DecodeBody(host, typ, Rest(), lastRing).Decoded?
      // The tag is the word that was read last.
      requires 4 <= cursor <= |memory| && typ == IntOf(memory[cursor - 4..cursor])
      modifies this`cursor, this`error, this`lastRing
      ensures var o := Codec.DecodeBody(host, typ, old(Rest()), old(lastRing));
        v == o.value && Read(o.rest, o.error) && lastRing == o.ring
      decreases |Rest()|, 2
    {
      hide Codec.DecodeAll, DecodeLeaf, Codec.GetSized;
      if typ == LIST_CMD {
        v := DecodeList(host);
      } else if typ == COMMAND {
        v := DecodeCommand(host);
      } else if typ == DEF_CMD {
        var s := GetSized();
        var r := host.eval(DefValue(UpToNul(s)));
        if r.error {
          error := true;
        }
        v := r.value;
      } else {
        v := DecodeLeafValue(typ);
      }
    }

    method DecodeLeafValue(typ: Int32) returns (v: Value)
      requires DecodeLeaf(typ, Rest(), lastRing).Got?
      requires 4 <= cursor <= |memory| && typ == IntOf(memory[cursor - 4..cursor])
      modifies this`cursor, this`error
      ensures var o := DecodeLeaf(typ, old(Rest()), lastRing); v == o.value && Read(o.rest, o.error)
    {
      hide Codec.DecodeCoeff, Codec.DecodePoly, Codec.DecodeIdeal, Codec.GetInts, Codec.GetSized, IntOf;
      if typ == NONE {
        v := Nothing;
      } else if typ == INT_CMD {
        var n := GetLong();
        v := IntValue(n);
      } else if typ == STRING_CMD {
        var s := GetSized();
        v := StringValue(UpToNul(s));
      } else if typ == BIGINT_CMD {
        var c := DecodeCoeff(Q);
        v := BigIntValue(c);
      } else if typ == INTMAT_CMD {
        v := DecodeIntMatrix();
      } else if SharedType(typ) {
        var again := GetPrevInt();
        var addr := GetSize();
        v := SharedValue(again, addr);
      } else if typ == NUMBER_CMD {
        var c := DecodeCoeff(lastRing.value.cf);
        v := NumberValue(c);
      } else if typ == POLY_CMD {
        var p := DecodePoly(lastRing.value);
        v := PolyValue(p);
      } else {
        var ps := DecodeIdeal(lastRing.value);
        v := IdealValue(ps);
      }
    }

    method DecodeIntMatrix() returns (v: Value)
      requires DecodeIntMat(Rest()).Got?
      modifies this`cursor
      ensures var o := DecodeIntMat(old(Rest())); v == o.value && Read(o.rest, o.error)
    {
      hide Codec.GetInts;
      var head := GetInts(2);
      var entries := GetInts(head[0] * head[1]);
      v := IntMatValue(head[0], head[1], entries);
    }

    /** Reads one more element; `n` of them are left to read. */
    method DecodeNext(host: Host, vs: seq<Value>, ghost e: bool, ghost n: nat,
                      ghost all: Decoded<seq<Value>>, ghost error0: bool)
      returns (ws: seq<Value>, ghost e': bool)
      requires n > 0 && all.Decoded? && all == BehindAll(vs, e, DecodeAll(host, Rest(), lastRing, n))
      requires error == (error0 || e)
      modifies this`cursor, this`error, this`lastRing
      ensures all == BehindAll(ws, e', DecodeAll(host, Rest(), lastRing, n - 1))
      ensures |Rest()| < old(|Rest()|)
      ensures error == (error0 || e')
      decreases |Rest()|, 1
    {
      hide Codec.Decode;
      ghost var o := Codec.Decode(host, Rest(), lastRing);
      NextAll(host, Rest(), lastRing, vs, e, n);
      var x := Decode(host);
      ws, e' := vs + [x], e || o.error;
    }

    method DecodeList(host: Host) returns (v: Value)
      requires Codec.DecodeBody(host, LIST_CMD, Rest(), lastRing).Decoded?
      modifies this`cursor, this`error, this`lastRing
      ensures var o := Codec.DecodeBody(host, LIST_CMD, old(Rest()), old(lastRing));
        v == o.value && Read(o.rest, o.error) && lastRing == o.ring
      decreases |Rest()|, 1
    {
      hide Codec.Decode, Codec.GetInt, IntOf;
      var n: int := GetInt();
      var vs := [];
      ghost var all, e := DecodeAll(host, Rest(), lastRing, n + 1), false;
      BehindNone(all);
      var i := 0;
      while i <= n
        invariant 0 <= i <= n + 1
        invariant |Rest()| < old(|Rest()|)
        invariant error == (old(error) || e)
        invariant all == BehindAll(vs, e, DecodeAll(host, Rest(), lastRing, n + 1 - i))
      {
        hide Codec.DecodeAll, Codec.DecodeBody, Codec.GetInt;
        vs, e := DecodeNext(host, vs, e, n + 1 - i, all, old(error));
        i := i + 1;
      }
      assert vs + [] == vs;
      v := ListValue(vs);
    }

    method DecodeCommand(host: Host) returns (v: Value)
      requires Codec.DecodeBody(host, COMMAND, Rest(), lastRing).Decoded?
      modifies this`cursor, this`error, this`lastRing
      ensures var o := Codec.DecodeBody(host, COMMAND, old(Rest()), old(lastRing));
        v == o.value && Read(o.rest, o.error) && lastRing == o.ring
      decreases |Rest()|, 1
    {
      hide Codec.DecodeAll, Codec.GetInts;
      var head := GetInts(2);
      var vs := DecodeArguments(host, head[1]);
      var r := host.eval(CommandValue(head[0], head[1], vs));
      if r.error {
        error := true;
      }
      v := r.value;
    }

    /** One argument, two, three, or only the first of four and more. */
    method DecodeArguments(host: Host, argc: Int32) returns (vs: seq<Value>)
      requires DecodeAll(host, Rest(), lastRing, ArgCount(argc)).Decoded?
      modifies this`cursor, this`error, this`lastRing
      ensures var o := DecodeAll(host, old(Rest()), old(lastRing), ArgCount(argc));
        vs == o.value && Read(o.rest, o.error) && lastRing == o.ring
      decreases |Rest()|, 2
    {
      hide Codec.Decode;
      vs := [];
      ghost var n, e := ArgCount(argc), false;
      ghost var all := DecodeAll(host, Rest(), lastRing, n);
      BehindNone(all);
      if argc >= 1 {
        vs, e := DecodeNext(host, vs, e, n, all, error);
      }
      if argc < 4 {
        if argc >= 2 {
          vs, e := DecodeNext(host, vs, e, n - 1, all, old(error));
        }
        if argc >= 3 {
          vs, e := DecodeNext(host, vs, e, n - 2, all, old(error));
        }
      }
      assert vs + [] == vs;
    }
  }

  /** `to_string`. */
  method ToString(v: Value, cur: Ring) returns (s: seq<Byte>)
    requires Fits(v, cur) && RingFits(cur)
    ensures s == Codec.ToString(v, cur)
  {
    hide Codec.Encode;
    var lintree := new LinTree([]);
    lintree.Encode(v, cur);
    if lintree.error {
      lintree.Clear();
      lintree.PutInt(NONE);
    }
    s := lintree.memory;
  }

  /** `from_string`. */
  method FromString(host: Host, s: seq<Byte>) returns (v: Value)
    requires Codec.FromString(host, s).Some?
    ensures Codec.FromString(host, s) == Some(v)
  {
    hide Codec.Decode;
    var lintree := new LinTree(s);
    assert lintree.Rest() == s;
    v := lintree.Decode(host);
    if lintree.error {
      v := Nothing;
    }
  }

  /** What one thread shares and another reads: the value itself, evaluated, or nothing. */
  method ShareAndRead(host: Host, v: Value, cur: Ring) returns (w: Value)
    requires Fits(v, cur) && RingFits(cur) && (MentionsRing(v) ==> Announced(host.find, cur))
    ensures var e := Evaluate(host.eval, Strip(v));
      w == if Sharable(v, cur) && !e.error then e.value else Nothing
  {
    hide Fits, RingFits, Sharable, Announced, Unreadable, Codec.ToString, Codec.FromString, Evaluate;
    StringBack(host, v, cur);
    var s := ToString(v, cur);
    w := FromString(host, s);
  }
}
