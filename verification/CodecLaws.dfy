/** What the round trips mean, by the constructors of the values: which integers come back, which
    values need a ring, how many arguments of a command travel, and that the ring is announced once. */
module CodecLaws {
  import opened Bytes
  import opened Options
  import opened Values
  import opened Codec
  import opened PolyRoundTrip
  import opened ValueRoundTrip

  // ------------------------------------------------------------------- what comes back of a value

  predicate IsMagnitude(z: int, m: int) { m == if z < 0 then -z else z }

  /** `d` is `c` with the magnitudes of all out-of-line integers. */
  predicate CoeffMagnitude(c: Coeff, d: Coeff) {
    match c
    case Fraction(s, z, n) => d.Fraction? && d.s == s && IsMagnitude(z, d.z) && IsMagnitude(n, d.n)
    case Big(s, z) => d.Big? && d.s == s && IsMagnitude(z, d.z)
    case Quotient(num, den) => d.Quotient? && PolyMagnitude(num, d.num) && PolyMagnitude(den, d.den)
    case Element(p) => d.Element? && PolyMagnitude(p, d.p)
    case _ => d == c
  }

  predicate PolyMagnitude(p: Poly, q: Poly) {
    |q| == |p| && forall i | 0 <= i < |p| ::
      CoeffMagnitude(p[i].c, q[i].c) && q[i].comp == p[i].comp && q[i].exps == p[i].exps
  }

  predicate PolysMagnitude(ps: seq<Poly>, qs: seq<Poly>) {
    |qs| == |ps| && forall i | 0 <= i < |ps| :: PolyMagnitude(ps[i], qs[i])
  }

  predicate Magnitude(v: Value, w: Value) {
    match v
    case ListValue(items) =>
      w.ListValue? && |w.items| == |items| && forall i | 0 <= i < |items| :: Magnitude(items[i], w.items[i])
    case CommandValue(op, argc, args) =>
      && w.CommandValue? && w.op == op && w.argc == argc && |w.args| == |args|
      && forall i | 0 <= i < |args| :: Magnitude(args[i], w.args[i])
    case NumberValue(c) => w.NumberValue? && CoeffMagnitude(c, w.c)
    case BigIntValue(c) => w.BigIntValue? && CoeffMagnitude(c, w.c)
    case PolyValue(p) => w.PolyValue? && PolyMagnitude(p, w.p)
    case IdealValue(ps) => w.IdealValue? && PolysMagnitude(ps, w.polys)
    case _ => w == v
  }

  lemma {:induction false} CoeffMagnitudes(c: Coeff)
    ensures CoeffMagnitude(c, StripCoeff(c))
    decreases c
  {
    match c {
      case Quotient(num, den) =>
        PolyMagnitudes(num);
        PolyMagnitudes(den);
      case Element(p) => PolyMagnitudes(p);
      case _ =>
    }
  }

  lemma {:induction false} PolyMagnitudes(p: Poly)
    ensures PolyMagnitude(p, StripPoly(p))
    decreases p
  {
    if p != [] {
      CoeffMagnitudes(p[0].c);
      PolyMagnitudes(p[1..]);
      assert StripPoly(p)[0] == p[0].(c := StripCoeff(p[0].c)) && StripPoly(p)[1..] == StripPoly(p[1..]);
      forall i | 0 < i < |p|
        ensures CoeffMagnitude(p[i].c, StripPoly(p)[i].c)
        ensures StripPoly(p)[i].comp == p[i].comp && StripPoly(p)[i].exps == p[i].exps
      {
        assert p[1..][i - 1] == p[i] && StripPoly(p)[1..][i - 1] == StripPoly(p)[i];
      }
    }
  }

  lemma {:induction false} PolysMagnitudes(ps: seq<Poly>)
    ensures PolysMagnitude(ps, StripPolys(ps))
  {
    if ps != [] {
      PolyMagnitudes(ps[0]);
      PolysMagnitudes(ps[1..]);
      assert StripPolys(ps)[0] == StripPoly(ps[0]) && StripPolys(ps)[1..] == StripPolys(ps[1..]);
      forall i | 0 < i < |ps| ensures PolyMagnitude(ps[i], StripPolys(ps)[i]) {
        assert ps[1..][i - 1] == ps[i] && StripPolys(ps)[1..][i - 1] == StripPolys(ps)[i];
      }
    }
  }

  /** "Up to signs": everything is unchanged except out-of-line integers, which lose their sign and
      nothing else. */
  lemma {:induction false} StripIsMagnitude(v: Value)
    ensures Magnitude(v, Strip(v))
    decreases v, 0
  {
    match v {
      case ListValue(items) => StripAllMagnitudes(items);
      case CommandValue(_, _, args) => StripAllMagnitudes(args);
      case NumberValue(c) => CoeffMagnitudes(c);
      case BigIntValue(c) => CoeffMagnitudes(c);
      case PolyValue(p) => PolyMagnitudes(p);
      case IdealValue(ps) => PolysMagnitudes(ps);
      case _ =>
    }
  }

  lemma {:induction false} StripAllMagnitudes(vs: seq<Value>)
    ensures forall i | 0 <= i < |vs| :: Magnitude(vs[i], StripAll(vs)[i])
    decreases vs, 1
  {
    if vs != [] {
      StripIsMagnitude(vs[0]);
      StripAllMagnitudes(vs[1..]);
      assert StripAll(vs)[0] == Strip(vs[0]) && StripAll(vs)[1..] == StripAll(vs[1..]);
      forall i | 0 < i < |vs| ensures Magnitude(vs[i], StripAll(vs)[i]) {
        assert vs[1..][i - 1] == vs[i] && StripAll(vs)[1..][i - 1] == StripAll(vs)[i];
      }
    }
  }

  /** The same for the quotient ideal of a ring, of which nothing else changes. */
  lemma StripRingIsMagnitude(r: Ring)
    ensures var q := StripRing(r);
      && q.cf == r.cf && q.names == r.names && q.orders == r.orders && q.qideal.Some? == r.qideal.Some?
      && (r.qideal.Some? ==> PolysMagnitude(r.qideal.value, q.qideal.value))
  {
    if r.qideal.Some? {
      PolysMagnitudes(r.qideal.value);
    }
  }

  /** Whatever is shared comes back, before evaluation, as the value with those magnitudes. */
  lemma SharedMagnitude(find: Finder, v: Value, cur: Ring)
    requires Fits(v, cur) && RingFits(cur) && Sharable(v, cur) && (MentionsRing(v) ==> Announced(find, cur))
    ensures var o := FromString(Reading(find), ToString(v, cur)); o.Some? && Magnitude(v, o.value)
  {
    hide Fits, RingFits, RingSupported, Supported, MentionsRing, Announced, Encode, Decode, Strip, Magnitude;
    SharedBack(find, v, cur);
    StripIsMagnitude(v);
    EncodeError(v, cur, None);
  }

  // -------------------------------------------------------------------------- the integers at hand

  lemma {:induction false} FewDigits(x: nat, n: nat)
    requires x < Span(n)
    ensures |BigDigits(x)| <= n
  {
    if x > 0 {
      FewDigits(x / 0x100, n - 1);
    }
  }

  /** Every integer of fewer than 2^64 bytes can be written. */
  lemma IntegersFit(z: int, n: nat)
    requires n < HUGE && z < Span(n) && 0 - z < Span(n)
    ensures MagnitudeFits(z)
  {
    FewDigits(if z < 0 then -z else z, n);
  }

  /** Numerator and denominator of a fraction come back with their magnitudes. */
  lemma FractionComesBack(host: Host, s: Int32, z: int, n: int, cur: Ring)
    requires 0 <= s < 2 && MagnitudeFits(z) && MagnitudeFits(n) && RingFits(cur)
    ensures Fits(BigIntValue(Fraction(s, z, n)), cur)
    ensures FromString(host, ToString(BigIntValue(Fraction(s, z, n)), cur))
         == Some(BigIntValue(Fraction(s, if z < 0 then -z else z, if n < 0 then -n else n)))
  {
    hide RingFits, FromString, ToString, MagnitudeFits;
    StringBack(host, BigIntValue(Fraction(s, z, n)), cur);
  }

  /** Integers of 62 bits travel as they are, with their sign. */
  lemma ImmediateBack(host: Host, v: Int64, cur: Ring)
    requires -0x2000_0000_0000_0000 <= v < 0x2000_0000_0000_0000 && RingFits(cur)
    ensures Fits(BigIntValue(Small(v)), cur)
    ensures FromString(host, ToString(BigIntValue(Small(v)), cur)) == Some(BigIntValue(Small(v)))
  {
    hide RingFits, FromString, ToString;
    StringBack(host, BigIntValue(Small(v)), cur);
  }

  // ----------------------------------------------------------------------- which values need a ring

  /** No number, polynomial or ideal occurs anywhere in the value. */
  predicate Ringless(v: Value) {
    match v
    case NumberValue(_) => false
    case PolyValue(_) => false
    case IdealValue(_) => false
    case ListValue(items) => forall x | x in items :: Ringless(x)
    case CommandValue(_, _, args) => forall x | x in args :: Ringless(x)
    case _ => true
  }

  lemma {:induction false} MentionsExactly(v: Value)
    ensures MentionsRing(v) <==> !Ringless(v)
  {
    match v {
      case ListValue(items) =>
        forall x | x in items ensures MentionsRing(x) <==> !Ringless(x) {
          MentionsExactly(x);
        }
      case CommandValue(_, _, args) =>
        forall x | x in args ensures MentionsRing(x) <==> !Ringless(x) {
          MentionsExactly(x);
        }
      case _ =>
    }
  }

  /** A value without them fits every ring, ... */
  lemma {:induction false} FitsAny(v: Value, r: Ring, q: Ring)
    requires Ringless(v) && Fits(v, r)
    ensures Fits(v, q)
  {
    match v {
      case ListValue(items) => forall x | x in items ensures Fits(x, q) { FitsAny(x, r, q); }
      case CommandValue(_, _, args) => forall x | x in args ensures Fits(x, q) { FitsAny(x, r, q); }
      case _ =>
    }
  }

  /** A list or a command, its parts and what is written in front of them. */
  predicate Consists(v: Value, vs: seq<Value>, head: seq<Byte>) {
    || (v.ListValue? && v.items == vs && |vs| <= MANY && head == IntBytes(LIST_CMD) + IntBytes(|vs| - 1))
    || (v.CommandValue? && v.args == vs && head == IntBytes(COMMAND) + IntsBytes([v.op, v.argc]))
  }

  lemma PartsBytes(v: Value, vs: seq<Value>, head: seq<Byte>, cur: Ring, last: Option<Ring>)
    requires Fits(v, Active(cur, last)) && RingFits(cur) && Consists(v, vs, head)
    ensures forall x | x in vs :: Fits(x, Active(cur, last))
    ensures var e, all := Encode(v, cur, last), EncodeAll(vs, cur, last);
      e.written.bytes == head + all.written.bytes && e.ring == all.ring
  {
    hide RingFits, IntBytes, IntsBytes, EncodeAll;
  }

  /** ... announces none, and is written the same whatever the current ring is. */
  lemma {:induction false} RinglessSame(v: Value, r: Ring, q: Ring)
    requires Ringless(v) && Fits(v, r) && Fits(v, q) && RingFits(r) && RingFits(q)
    ensures Encode(v, r, None) == Encode(v, q, None) && Encode(v, r, None).ring == None
    decreases v, 1
  {
    hide RingFits, Encode, IntBytes, IntsBytes;
    match v {
      case ListValue(items) => RinglessParts(v, items, IntBytes(LIST_CMD) + IntBytes(|items| - 1), r, q);
      case CommandValue(op, argc, args) => RinglessParts(v, args, IntBytes(COMMAND) + IntsBytes([op, argc]), r, q);
      case _ => RinglessLeaf(v, r, q);
    }
  }

  lemma RinglessLeaf(v: Value, r: Ring, q: Ring)
    requires Ringless(v) && Fits(v, r) && Fits(v, q) && RingFits(r) && RingFits(q)
    requires !v.ListValue? && !v.CommandValue?
    ensures Encode(v, r, None) == Encode(v, q, None) && Encode(v, r, None).ring == None
  {
    hide RingFits, EncodeCoeff, CoeffFits, IntBytes, IntsBytes, EncodeAll;
  }

  lemma {:induction false} RinglessParts(v: Value, vs: seq<Value>, head: seq<Byte>, r: Ring, q: Ring)
    requires Ringless(v) && Fits(v, r) && Fits(v, q) && RingFits(r) && RingFits(q) && Consists(v, vs, head)
    ensures Encode(v, r, None) == Encode(v, q, None) && Encode(v, r, None).ring == None
    decreases vs, 1
  {
    hide RingFits, Encode, EncodeAll, IntBytes, IntsBytes;
    PartsBytes(v, vs, head, r, None);
    PartsBytes(v, vs, head, q, None);
    PartsError(v, vs, r);
    PartsError(v, vs, q);
    RinglessAllSame(vs, r, q);
  }

  lemma PartsError(v: Value, vs: seq<Value>, r: Ring)
    requires Fits(v, r) && RingFits(r) && ((v.ListValue? && v.items == vs) || (v.CommandValue? && v.args == vs))
    ensures forall x | x in vs :: Fits(x, r)
    ensures Encode(v, r, None).written.error == EncodeAll(vs, r, None).written.error
  {
    hide RingFits, IntBytes, IntsBytes, EncodeAll;
  }

  lemma {:induction false} RinglessAllSame(vs: seq<Value>, r: Ring, q: Ring)
    requires forall v | v in vs :: Ringless(v) && Fits(v, r) && Fits(v, q)
    requires RingFits(r) && RingFits(q)
    ensures EncodeAll(vs, r, None) == EncodeAll(vs, q, None) && EncodeAll(vs, r, None).ring == None
    decreases vs, 0
  {
    hide RingFits, Encode, Fits, Ringless;
    if vs != [] {
      RinglessSame(vs[0], r, q);
      RinglessAllSame(vs[1..], r, q);
    }
  }

  /** Such a value, if it is supported and unsigned and nothing in it is to be evaluated, comes back
      as it was, whatever the current ring is and whether or not that ring can be read. */
  lemma RinglessBack(host: Host, v: Value, cur: Ring)
    requires Ringless(v) && Fits(v, cur) && RingFits(cur) && Supported(v) && Unsigned(v) && Plainly(v)
    ensures FromString(host, ToString(v, cur)) == Some(v)
  {
    hide Fits, RingFits, RingSupported, FromString, ToString;
    MentionsExactly(v);
    RoundTripExactly(host, v, cur);
  }

  /** The others make both sides know the ring from then on. */
  lemma RingIsKnown(v: Value, cur: Ring)
    requires Fits(v, cur) && RingFits(cur) && Supported(v)
    ensures Encode(v, cur, None).ring == if Ringless(v) then None else Some(cur)
  {
    hide Fits, RingFits, Supported, Encode;
    MentionsExactly(v);
    EncodeError(v, cur, None);
  }

  // ---------------------------------------------------------------------- the ring is announced once

  /** What `encode` puts in front of the first value that needs the ring. */
  function Announcement(r: Ring): seq<Byte>
    requires RingFits(r)
  {
    IntBytes(-1) + EncodeRing(r).bytes
  }

  /** `a` is `b` with one announcement put in somewhere. */
  ghost predicate Inserted(a: seq<Byte>, b: seq<Byte>, x: seq<Byte>) {
    exists k :: 0 <= k <= |b| && a == b[..k] + (x + b[k..])
  }

  lemma InsertedIn(a: seq<Byte>, b: seq<Byte>, x: seq<Byte>, front: seq<Byte>, back: seq<Byte>)
    requires Inserted(a, b, x)
    ensures Inserted(front + a + back, front + b + back, x)
  {
    var k :| 0 <= k <= |b| && a == b[..k] + (x + b[k..]);
    var whole := front + b + back;
    assert whole[..|front| + k] == front + b[..k];
    assert whole[|front| + k..] == b[k..] + back;
    assert front + a + back == whole[..|front| + k] + (x + whole[|front| + k..]);
  }

  lemma InsertedFirst(b: seq<Byte>, x: seq<Byte>)
    ensures Inserted(x + b, b, x)
  {
    assert x + b == b[..0] + (x + b[0..]);
  }

  /** Once the ring is known, a value is written without announcing it: the first word is its type. */
  lemma KnownStartsWithType(v: Value, cur: Ring, r: Ring)
    requires Fits(v, r) && !v.OtherValue?
    ensures var b := Encode(v, cur, Some(r)).written.bytes;
      |b| >= 4 && IntOf(b[..4]) == Tag(v) >= 0
  {
    hide IntBytes, IntOf, EncodeBody, Fits;
    TagPositive(v, r);
    IntRoundTrip(Tag(v));
    var body := EncodeBody(v, cur, Some(r)).written.bytes;
    assert Encode(v, cur, Some(r)).written.bytes == IntBytes(Tag(v)) + body;
    assert (IntBytes(Tag(v)) + body)[..4] == IntBytes(Tag(v));
  }

  /** A value in which a number, polynomial or ideal occurs is written with exactly one announcement,
      any other with none. */
  lemma {:induction false} AnnouncedOnce(v: Value, cur: Ring)
    requires Fits(v, cur) && RingFits(cur)
    ensures var a, b := Encode(v, cur, None).written.bytes, Encode(v, cur, Some(cur)).written.bytes;
      if Ringless(v) then a == b else Inserted(a, b, Announcement(cur))
    ensures Encode(v, cur, None).ring == if Ringless(v) then None else Some(cur)
    decreases v, 1
  {
    hide RingFits, EncodeCoeff, CoeffFits, PolyFits, IntBytes, IntsBytes, EncodeRing, Inserted, EncodeAll;
    match v {
      case ListValue(items) => PartsOnce(v, items, IntBytes(LIST_CMD) + IntBytes(|items| - 1), cur);
      case CommandValue(op, argc, args) => PartsOnce(v, args, IntBytes(COMMAND) + IntsBytes([op, argc]), cur);
      case NumberValue(_) => LeafOnce(v, cur);
      case PolyValue(_) => LeafOnce(v, cur);
      case IdealValue(_) => LeafOnce(v, cur);
      case _ =>
    }
  }

  lemma LeafOnce(v: Value, cur: Ring)
    requires Fits(v, cur) && RingFits(cur) && (v.NumberValue? || v.PolyValue? || v.IdealValue?)
    ensures Inserted(Encode(v, cur, None).written.bytes, Encode(v, cur, Some(cur)).written.bytes, Announcement(cur))
    ensures Encode(v, cur, None).ring == Some(cur)
  {
    hide RingFits, EncodeBody, IntBytes, EncodeRing, Inserted, Fits;
    var b := Encode(v, cur, Some(cur)).written.bytes;
    assert Encode(v, cur, None).written.bytes == Announcement(cur) + b;
    InsertedFirst(b, Announcement(cur));
  }

  lemma {:induction false} PartsOnce(v: Value, vs: seq<Value>, head: seq<Byte>, cur: Ring)
    requires Fits(v, cur) && RingFits(cur) && Consists(v, vs, head)
    ensures var a, b := Encode(v, cur, None).written.bytes, Encode(v, cur, Some(cur)).written.bytes;
      if Ringless(v) then a == b else Inserted(a, b, Announcement(cur))
    ensures Encode(v, cur, None).ring == if Ringless(v) then None else Some(cur)
    decreases vs, 3
  {
    hide RingFits, IntBytes, IntsBytes, EncodeRing, Inserted, EncodeAll, Encode, Announcement;
    PartsBytes(v, vs, head, cur, None);
    PartsBytes(v, vs, head, cur, Some(cur));
    hide Fits;
    AllOnce(vs, cur);
    var a, b := EncodeAll(vs, cur, None).written.bytes, EncodeAll(vs, cur, Some(cur)).written.bytes;
    if !Ringless(v) {
      InsertedIn(a, b, Announcement(cur), head, []);
      assert head + a + [] == head + a && head + b + [] == head + b;
    }
  }

  lemma {:induction false} AllOnce(vs: seq<Value>, cur: Ring)
    requires RingFits(cur) && forall v | v in vs :: Fits(v, cur)
    ensures var a, b := EncodeAll(vs, cur, None).written.bytes, EncodeAll(vs, cur, Some(cur)).written.bytes;
      if forall v | v in vs :: Ringless(v) then a == b else Inserted(a, b, Announcement(cur))
    ensures EncodeAll(vs, cur, None).ring == if forall v | v in vs :: Ringless(v) then None else Some(cur)
    decreases vs, 2
  {
    hide RingFits, Encode, Fits, Ringless, Inserted, Announcement;
    if vs != [] {
      AnnouncedOnce(vs[0], cur);
      AllOnce(vs[1..], cur);
      assert vs == [vs[0]] + vs[1..];
      var a, b := Encode(vs[0], cur, None).written.bytes, Encode(vs[0], cur, Some(cur)).written.bytes;
      var a', b' := EncodeAll(vs[1..], cur, None).written.bytes, EncodeAll(vs[1..], cur, Some(cur)).written.bytes;
      if !Ringless(vs[0]) {
        InsertedIn(a, b, Announcement(cur), [], b');
        assert [] + a + b' == a + b' && [] + b + b' == b + b';
      } else if exists v :: v in vs[1..] && !Ringless(v) {
        InsertedIn(a', b', Announcement(cur), b, []);
        assert b + a' + [] == b + a' && b + b' + [] == b + b';
      }
    }
  }
}
