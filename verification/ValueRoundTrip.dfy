/** The codec as a whole: the ring descriptor in front of the first ring-dependent value, errors,
    evaluation while decoding, and whole strings. */
module ValueRoundTrip {
  import opened Bytes
  import opened Options
  import opened Values
  import opened Codec
  import opened PolyRoundTrip

  // ------------------------------------------------------------------------------------- rings

  lemma {:induction false} BlocksError(bs: seq<Block>)
    ensures EncodeBlocks(bs).error <==> exists b | b in bs :: b.ord in UNSUPPORTED_ORDERS
  {
    if bs != [] {
      BlocksError(bs[1..]);
      assert bs == [bs[0]] + bs[1..];
    }
  }

  lemma {:induction false} RingError(r: Ring)
    requires RingFits(r)
    ensures EncodeRing(r).error <==> !RingSupported(r)
    decreases r
  {
    hide EncodeBlocks, EncodePolys, PolyFits, PolySupported, CStringsBytes, RingHead, IntBytes;
    BlocksError(r.orders);
    if r.qideal.Some? {
      PolysError(r.qideal.value, r);
    }
    if r.cf.TransExt? || r.cf.AlgExt? {
      RingError(r.cf.ext);
    }
  }

  lemma BlockBack(b: Block, s: seq<Byte>)
    requires BlockFits(b) && b.ord !in UNSUPPORTED_ORDERS
    ensures DecodeBlock(EncodeBlock(b).bytes + s) == Got(b, s, false)
  {
    hide IntsBytes, GetInts;
    var head, tail := [b.ord, b.first, b.last], IntsBytes(b.weights) + s;
    assert EncodeBlock(b).bytes + s == IntsBytes(head) + tail;
    IntsBack(head, tail);
    IntsBack(b.weights, s);
  }

  lemma {:induction false} BlocksBack(bs: seq<Block>, s: seq<Byte>)
    requires forall b | b in bs :: BlockFits(b) && b.ord !in UNSUPPORTED_ORDERS
    ensures DecodeBlocks(EncodeBlocks(bs).bytes + s, |bs|) == Got(bs, s, false)
  {
    hide EncodeBlock, DecodeBlock;
    if bs == [] {
      assert EncodeBlocks(bs).bytes + s == s;
    } else {
      var tail := EncodeBlocks(bs[1..]).bytes + s;
      assert EncodeBlocks(bs).bytes + s == EncodeBlock(bs[0]).bytes + tail;
      BlockBack(bs[0], tail);
      BlocksBack(bs[1..], s);
      assert bs == [bs[0]] + bs[1..];
    }
  }

  lemma QuotientBack(r: Ring, s: seq<Byte>)
    requires RingFits(r) && RingSupported(r)
    ensures DecodeQuotient(EncodeQuotient(r).bytes + s, r.(qideal := None)) == Got(StripRing(r), s, false)
  {
    hide GetInt, EncodeIdeal, DecodeIdeal, PolyFits, PolySupported, StripPolys;
    if r.qideal.None? {
      IntBack(0, s);
    } else {
      var tail := EncodeIdeal(r.qideal.value, r).bytes + s;
      assert EncodeQuotient(r).bytes + s == IntBytes(IDEAL_CMD) + tail;
      IntBack(IDEAL_CMD, tail);
      IdealBack(r.qideal.value, r, s);
      SameShape(tail, r, r.(qideal := None));
    }
  }

  /** What `decode_ring_raw` is told about the coefficients is what `encode_ring` meant. */
  predicate Announced(find: Finder, r: Ring) {
    r.cf.Q? || r.cf.Zp? || (r.cf.OtherCoeffs? && find(r.cf.name) == Some(r.cf))
  }

  /** `decode_ring_raw` finds no coefficients under the first string of the descriptor, which is the
      name of the coefficients or, for an extension field, the name of the first variable. */
  predicate Unreadable(find: Finder, r: Ring) {
    || (r.cf.OtherCoeffs? && find(r.cf.name) == None)
    || ((r.cf.TransExt? || r.cf.AlgExt?) && r.names != [] && find(r.names[0]) == None)
  }

  /** No other coefficients are found there, either. */
  predicate Unambiguous(find: Finder, r: Ring) { Announced(find, r) || Unreadable(find, r) }

  lemma OrdersBack(r: Ring, s: seq<Byte>)
    requires RingFits(r) && RingSupported(r)
    ensures DecodeOrders(IntBytes(|r.orders|) + (EncodeBlocks(r.orders).bytes + s)) == Got(r.orders, s, false)
  {
    hide GetInt, EncodeBlocks, DecodeBlocks, PolysFit, PolySupported, TextFits;
    IntBack(|r.orders|, EncodeBlocks(r.orders).bytes + s);
    BlocksBack(r.orders, s);
  }

  lemma NamedBack(find: Finder, r: Ring, last: Option<Ring>, s: seq<Byte>)
    requires RingFits(r) && RingSupported(r) && Announced(find, r)
    ensures DecodeNamed(find, RingTail(r, s), last, CharOf(r.cf), |r.names|, r.cf) == Got(Some(StripRing(r)), s, false)
  {
    hide GetInts, CStringsBytes, GetCStrings, DecodeOrders, PolysFit, PolySupported, TextFits, StripRing;
    hide EncodeBlocks, EncodeQuotient, DecodeQuotient, BlockFits;
    var quotient := EncodeQuotient(r).bytes + s;
    var orders := IntBytes(|r.orders|) + (EncodeBlocks(r.orders).bytes + quotient);
    CStringsBack(r.names, orders);
    OrdersBack(r, quotient);
    QuotientBack(r, s);
    assert r.(qideal := None) == Ring(r.cf, r.names, r.orders, None);
  }

  /** What follows the head of a descriptor without an extension. */
  function RingTail(r: Ring, s: seq<Byte>): seq<Byte>
    requires RingFits(r)
  {
    CStringsBytes(r.names) + (IntBytes(|r.orders|) + (EncodeBlocks(r.orders).bytes + (EncodeQuotient(r).bytes + s)))
  }

  lemma RingBytes(r: Ring, s: seq<Byte>)
    requires RingFits(r) && !r.cf.TransExt? && !r.cf.AlgExt?
    ensures EncodeRing(r).bytes + s == RingHead(r) + RingTail(r, s)
  {
    hide RingHead, CStringsBytes, EncodeBlocks, EncodeQuotient, PolysFit, TextFits, BlockFits;
  }

  /** A ring descriptor is read back as the ring it describes. */
  lemma RingBack(find: Finder, r: Ring, last: Option<Ring>, s: seq<Byte>)
    requires RingFits(r) && RingSupported(r) && Announced(find, r)
    ensures DecodeRing(find, EncodeRing(r).bytes + s, last) == Got(Some(StripRing(r)), s, false)
  {
    hide IntsBytes, GetInts, PolysFit, PolySupported, StripRing, GetCString, CStringBytes;
    hide EncodeRing, RingTail, DecodeNamed, BlockFits;
    var head := [CharOf(r.cf), |r.names|];
    RingBytes(r, s);
    NamedBack(find, r, last, s);
    if r.cf.OtherCoeffs? {
      var tail := CStringBytes(r.cf.name) + RingTail(r, s);
      assert EncodeRing(r).bytes + s == IntsBytes(head) + tail;
      IntsBack(head, tail);
      CStringBack(r.cf.name, RingTail(r, s));
    } else {
      assert IntsBytes(head) + [] == IntsBytes(head);
      IntsBack(head, RingTail(r, s));
    }
  }

  /** The descriptor of a ring over an extension is misread: where the name of the coefficients is
      expected stands the name of the first variable. */
  lemma ExtensionMisread(find: Finder, r: Ring, last: Option<Ring>, s: seq<Byte>)
    requires RingFits(r) && (r.cf.TransExt? || r.cf.AlgExt?) && find(r.names[0]) == None
    ensures var o := DecodeRing(find, EncodeRing(r).bytes + s, last); o.Got? && o.value == None && o.error
  {
    hide IntsBytes, GetInts, GetCString, CStringBytes, DecodeNamed, EncodeBlocks, EncodeQuotient, PolysFit, BlockFits;
    var head := [CharOf(r.cf), |r.names|];
    var inner := EncodeRing(r.cf.ext).bytes + (EncodeQuotient(r).bytes + s);
    var after := IntBytes(|r.orders|) + (EncodeBlocks(r.orders).bytes + inner);
    var names := CStringBytes(r.names[0]) + (CStringsBytes(r.names[1..]) + after);
    ExtensionBytes(r, s);
    assert CStringsBytes(r.names) == CStringBytes(r.names[0]) + CStringsBytes(r.names[1..]);
    assert EncodeRing(r).bytes + s == IntsBytes(head) + names;
    IntsBack(head, names);
    CStringBack(r.names[0], CStringsBytes(r.names[1..]) + after);
  }

  /** So is the descriptor of a ring over coefficients whose name the reader does not know. */
  lemma UnreadableMisread(find: Finder, r: Ring, last: Option<Ring>, s: seq<Byte>)
    requires RingFits(r) && Unreadable(find, r)
    ensures var o := DecodeRing(find, EncodeRing(r).bytes + s, last); o.Got? && o.value == None && o.error
  {
    hide IntsBytes, GetInts, GetCString, CStringBytes, DecodeNamed, EncodeRing, RingTail, PolysFit, BlockFits;
    if r.cf.OtherCoeffs? {
      var tail := CStringBytes(r.cf.name) + RingTail(r, s);
      RingBytes(r, s);
      assert EncodeRing(r).bytes + s == IntsBytes([-3, |r.names|]) + tail;
      IntsBack([-3, |r.names|], tail);
      CStringBack(r.cf.name, RingTail(r, s));
    } else {
      ExtensionMisread(find, r, last, s);
    }
  }

  lemma ExtensionBytes(r: Ring, s: seq<Byte>)
    requires RingFits(r) && (r.cf.TransExt? || r.cf.AlgExt?)
    ensures EncodeRing(r).bytes + s
         == IntsBytes([CharOf(r.cf), |r.names|]) + (CStringsBytes(r.names)
          + (IntBytes(|r.orders|)
          + (EncodeBlocks(r.orders).bytes + (EncodeRing(r.cf.ext).bytes + (EncodeQuotient(r).bytes + s)))))
  {
    hide IntsBytes, IntBytes, CStringsBytes, EncodeBlocks, EncodeQuotient, EncodeRing, PolysFit, BlockFits;
    ExtensionPieces(r);
    Regroup(IntsBytes([CharOf(r.cf), |r.names|]), CStringsBytes(r.names), IntBytes(|r.orders|),
            EncodeBlocks(r.orders).bytes, EncodeRing(r.cf.ext).bytes, EncodeQuotient(r).bytes, s);
  }

  lemma Regroup(a: seq<Byte>, b: seq<Byte>, c: seq<Byte>, d: seq<Byte>, e: seq<Byte>, f: seq<Byte>, s: seq<Byte>)
    ensures ((((a + b) + c) + d + e) + f) + s == a + (b + (c + (d + (e + (f + s)))))
  {
  }

  lemma ExtensionPieces(r: Ring)
    requires RingFits(r) && (r.cf.TransExt? || r.cf.AlgExt?)
    ensures EncodeRing(r).bytes
         == (((IntsBytes([CharOf(r.cf), |r.names|]) + CStringsBytes(r.names)) + IntBytes(|r.orders|))
          + EncodeBlocks(r.orders).bytes + EncodeRing(r.cf.ext).bytes) + EncodeQuotient(r).bytes
  {
    hide IntsBytes, CStringsBytes, EncodeBlocks, EncodeQuotient, PolysFit, TextFits, BlockFits;
  }

  // ------------------------------------------------------------------------- errors of `encode`

  /** The encoder reports an error exactly when some node, coefficient type or ring order of what it
      has to write is not supported. */
  lemma {:induction false} EncodeError(v: Value, cur: Ring, last: Option<Ring>)
    requires Fits(v, Active(cur, last)) && (last.None? ==> RingFits(cur))
    ensures Encode(v, cur, last).written.error
        <==> !Supported(v) || (last.None? && MentionsRing(v) && !RingSupported(cur))
    ensures Supported(v) ==> (Encode(v, cur, last).ring.Some? <==> last.Some? || MentionsRing(v))
    decreases v, 1
  {
    hide RingFits, RingSupported, EncodeRing, PolyFits, PolySupported, EncodePoly, EncodePolys, CoeffFits;
    hide EncodeCoeff, CoeffSupported, IntBytes;
    if !v.OtherValue? {
      var known := if NeedsRing(v) then Some(Active(cur, last)) else last;
      if last.None? {
        RingError(cur);
      }
      BodyError(v, cur, known);
    }
  }

  lemma {:induction false} BodyError(v: Value, cur: Ring, last: Option<Ring>)
    requires Fits(v, Active(cur, last)) && (last.None? ==> RingFits(cur))
    requires !v.OtherValue? && (NeedsRing(v) ==> last.Some?)
    ensures EncodeBody(v, cur, last).written.error
        <==> !Supported(v) || (last.None? && MentionsRing(v) && !RingSupported(cur))
    ensures Supported(v) ==> (EncodeBody(v, cur, last).ring.Some? <==> last.Some? || MentionsRing(v))
    decreases v, 0
  {
    hide RingFits, RingSupported, PolyFits, PolySupported, EncodePoly, EncodePolys, CoeffFits, EncodeCoeff;
    hide CoeffSupported, IntBytes, IntsBytes, EncodeAll;
    match v {
      case ListValue(items) => AllError(items, cur, last);
      case CommandValue(_, _, args) => AllError(args, cur, last);
      case NumberValue(c) => CoeffError(c, last.value.cf);
      case BigIntValue(c) => CoeffError(c, Q);
      case PolyValue(p) => PolyError(p, last.value);
      case IdealValue(ps) => PolysError(ps, last.value);
      case _ =>
    }
  }

  lemma {:induction false} AllError(vs: seq<Value>, cur: Ring, last: Option<Ring>)
    requires (forall v | v in vs :: Fits(v, Active(cur, last))) && (last.None? ==> RingFits(cur))
    ensures EncodeAll(vs, cur, last).written.error
        <==> ((exists v | v in vs :: !Supported(v))
              || (last.None? && (exists v | v in vs :: MentionsRing(v)) && !RingSupported(cur)))
    ensures (forall v | v in vs :: Supported(v)) ==>
              (EncodeAll(vs, cur, last).ring.Some? <==> last.Some? || exists v | v in vs :: MentionsRing(v))
    decreases vs, 2
  {
    hide RingFits, RingSupported, Encode, Fits, Supported, MentionsRing;
    if vs != [] {
      var e := Encode(vs[0], cur, last);
      EncodeError(vs[0], cur, last);
      AllError(vs[1..], cur, e.ring);
      assert vs == [vs[0]] + vs[1..];
    }
  }

  // --------------------------------------------------------------- the round trip of one value

  /** Decoding without evaluating: commands and names stay what they are. */
  function Keep(v: Value): Evaluated { Evaluated(v, false) }

  /** The host, if it did not evaluate. */
  function Reading(find: Finder): Host { Host(Keep, find) }

  /** When a value has to announce the ring it lives in, that ring can be announced. */
  predicate Announceable(find: Finder, v: Value, cur: Ring, last: Option<Ring>) {
    last.None? ==> RingFits(cur) && (MentionsRing(v) ==> RingSupported(cur) && Announced(find, cur))
  }

  function StripLast(last: Option<Ring>): Option<Ring> { if last.None? then last else Some(StripRing(last.value)) }

  lemma StripShape(r: Ring)
    ensures StripRing(r).cf == r.cf && StripRing(r).names == r.names
  {
  }

  lemma LeafBack(v: Value, cur: Ring, last: Option<Ring>, s: seq<Byte>)
    requires Fits(v, Active(cur, last)) && Supported(v) && (last.None? ==> RingFits(cur))
    requires !v.OtherValue? && !v.ListValue? && !v.CommandValue? && !v.DefValue? && !NeedsRing(v)
    ensures EncodeBody(v, cur, last).ring == last
    ensures DecodeLeaf(Tag(v), EncodeBody(v, cur, last).written.bytes + s, StripLast(last)) == Got(Strip(v), s, false)
  {
    hide GetLong, GetSized, GetInts, IntsBytes, SizedBytes, DecodeWithRing, CoeffFits, CoeffSupported;
    hide StripCoeff, EncodeCoeff, DecodeCoeff, RingFits, StripLast, StripRing;
    match v {
      case Nothing => assert [] + s == s;
      case IntValue(n) => LongBack(n, s);
      case StringValue(t) =>
        SizedBack(t, s);
        NoNulInside(t, []);
        assert t + [] == t;
      case BigIntValue(c) => CoeffBack(c, Q, s);
      case IntMatValue(rows, cols, entries) =>
        var tail := IntsBytes(entries) + s;
        assert (IntsBytes([rows, cols]) + IntsBytes(entries)) + s == IntsBytes([rows, cols]) + tail;
        IntsBack([rows, cols], tail);
        IntsBack(entries, s);
      case SharedValue(typ, addr) =>
        SizeRoundTrip(addr);
        assert (SizeBytes(addr) + s)[..8] == SizeBytes(addr) && (SizeBytes(addr) + s)[8..] == s;
    }
  }

  /** Values that live in a ring, read by a side that knows the same ring up to signs. */
  lemma RingLeafBack(v: Value, cur: Ring, r: Ring, s: seq<Byte>)
    requires Fits(v, r) && Supported(v) && NeedsRing(v)
    ensures var e := EncodeBody(v, cur, Some(r));
      DecodeLeaf(Tag(v), e.written.bytes + s, Some(StripRing(r))) == Got(Strip(v), s, false)
  {
    hide PolyFits, PolySupported, StripPoly, StripPolys, CoeffFits, CoeffSupported, StripCoeff, EncodeCoeff;
    hide DecodeCoeff, EncodePoly, DecodePoly, EncodeIdeal, DecodeIdeal, StripRing;
    StripShape(r);
    match v {
      case NumberValue(c) => CoeffBack(c, r.cf, s);
      case PolyValue(p) =>
        SameShape(EncodePoly(p, r).bytes + s, r, StripRing(r));
        PolyBack(p, r, s);
      case IdealValue(ps) =>
        SameShape(EncodeIdeal(ps, r).bytes + s, r, StripRing(r));
        IdealBack(ps, r, s);
    }
  }

  /** `decode` after `encode`, inside any stream: the value comes back up to the signs of
      out-of-line integers, the cursor stops exactly behind it, and both sides agree on the ring
      the stream is about, wherever in the value that ring was announced. */
  lemma {:induction false} ValueBack(find: Finder, v: Value, cur: Ring, last: Option<Ring>, s: seq<Byte>)
    requires Fits(v, Active(cur, last)) && Supported(v)
    requires Announceable(find, v, cur, last)
    ensures var e := Encode(v, cur, last);
      Decode(Reading(find), e.written.bytes + s, StripLast(last)) == Decoded(Strip(v), s, StripLast(e.ring), false)
    decreases v, 1
  {
    hide GetInt, DecodeRing, EncodeRing, DecodeBody, EncodeBody, RingFits, RingSupported, Fits, Supported;
    hide Strip, StripRing, Tag, IntBytes;
    var known := if NeedsRing(v) then Some(Active(cur, last)) else last;
    assert !v.OtherValue? by { OtherUnsupported(v); }
    var body := EncodeBody(v, cur, known).written.bytes;
    TagPositive(v, Active(cur, last));
    BodyBack(find, v, cur, known, s);
    IntBack(Tag(v), body + s);
    if NeedsRing(v) && last.None? {
      var tail := IntBytes(Tag(v)) + (body + s);
      assert Encode(v, cur, last).written.bytes + s == IntBytes(-1) + (EncodeRing(cur).bytes + tail);
      IntBack(-1, EncodeRing(cur).bytes + tail);
      RingBack(find, cur, last, tail);
    } else {
      assert Encode(v, cur, last).written.bytes + s == IntBytes(Tag(v)) + (body + s);
    }
  }

  lemma OtherUnsupported(v: Value)
    requires Supported(v)
    ensures !v.OtherValue?
  {
  }

  lemma TagPositive(v: Value, r: Ring)
    requires Fits(v, r)
    ensures Tag(v) >= 0
  {
  }

  lemma {:induction false} BodyBack(find: Finder, v: Value, cur: Ring, last: Option<Ring>, s: seq<Byte>)
    requires Fits(v, Active(cur, last)) && Supported(v) && !v.OtherValue? && (NeedsRing(v) ==> last.Some?)
    requires Announceable(find, v, cur, last)
    ensures var e := EncodeBody(v, cur, last);
      DecodeBody(Reading(find), Tag(v), e.written.bytes + s, StripLast(last))
        == Decoded(Strip(v), s, StripLast(e.ring), false)
    decreases v, 0
  {
    if v.ListValue? {
      ListBack(find, v, cur, last, s);
    } else if v.CommandValue? {
      CommandBack(find, v, cur, last, s);
    } else if v.DefValue? {
      DefBack(find, v, cur, last, s);
    } else {
      OnlyLeaf(find, v, cur, last, s);
    }
  }

  lemma OnlyLeaf(find: Finder, v: Value, cur: Ring, last: Option<Ring>, s: seq<Byte>)
    requires Fits(v, Active(cur, last)) && Supported(v) && !v.OtherValue? && (NeedsRing(v) ==> last.Some?)
    requires last.None? ==> RingFits(cur)
    requires !v.ListValue? && !v.CommandValue? && !v.DefValue?
    ensures var e := EncodeBody(v, cur, last);
      DecodeBody(Reading(find), Tag(v), e.written.bytes + s, StripLast(last))
        == Decoded(Strip(v), s, StripLast(e.ring), false)
  {
    hide DecodeLeaf, DecodeAll, RingFits, Strip, StripRing, Supported, EncodeCoeff, EncodePoly, EncodeIdeal;
    hide CoeffFits, PolyFits, PolysFit;
    if NeedsRing(v) {
      RingLeafBack(v, cur, last.value, s);
    } else {
      LeafBack(v, cur, last, s);
    }
  }

  lemma DefBack(find: Finder, v: Value, cur: Ring, last: Option<Ring>, s: seq<Byte>)
    requires Fits(v, Active(cur, last)) && v.DefValue? && (last.None? ==> RingFits(cur))
    ensures var e := EncodeBody(v, cur, last);
      DecodeBody(Reading(find), Tag(v), e.written.bytes + s, StripLast(last))
        == Decoded(Strip(v), s, StripLast(e.ring), false)
  {
    hide GetSized, SizedBytes, StripRing, RingFits;
    SizedBack(v.name, s);
    NoNulInside(v.name, []);
    assert v.name + [] == v.name;
  }

  lemma {:induction false} ListBack(find: Finder, v: Value, cur: Ring, last: Option<Ring>, s: seq<Byte>)
    requires Fits(v, Active(cur, last)) && Supported(v) && v.ListValue?
    requires Announceable(find, v, cur, last)
    ensures var e := EncodeBody(v, cur, last);
      DecodeBody(Reading(find), Tag(v), e.written.bytes + s, StripLast(last))
        == Decoded(Strip(v), s, StripLast(e.ring), false)
    decreases v.items, 3
  {
    hide GetInt, IntBytes, DecodeAll, EncodeAll, RingFits, RingSupported, StripAll, StripLast;
    var all := EncodeAll(v.items, cur, last).written.bytes;
    assert EncodeBody(v, cur, last).written.bytes + s == IntBytes(|v.items| - 1) + (all + s);
    IntBack(|v.items| - 1, all + s);
    AllBack(find, v.items, cur, last, s);
  }

  lemma {:induction false} CommandBack(find: Finder, v: Value, cur: Ring, last: Option<Ring>, s: seq<Byte>)
    requires Fits(v, Active(cur, last)) && Supported(v) && v.CommandValue?
    requires Announceable(find, v, cur, last)
    ensures var e := EncodeBody(v, cur, last);
      DecodeBody(Reading(find), Tag(v), e.written.bytes + s, StripLast(last))
        == Decoded(Strip(v), s, StripLast(e.ring), false)
    decreases v.args, 3
  {
    hide GetInts, IntsBytes, DecodeAll, EncodeAll, RingFits, RingSupported, StripAll, StripLast;
    var all := EncodeAll(v.args, cur, last).written.bytes;
    assert EncodeBody(v, cur, last).written.bytes + s == IntsBytes([v.op, v.argc]) + (all + s);
    IntsBack([v.op, v.argc], all + s);
    AllBack(find, v.args, cur, last, s);
  }

  lemma {:induction false} AllBack(find: Finder, vs: seq<Value>, cur: Ring, last: Option<Ring>, s: seq<Byte>)
    requires forall v | v in vs :: Fits(v, Active(cur, last)) && Supported(v) && Announceable(find, v, cur, last)
    requires last.None? ==> RingFits(cur)
    ensures var e := EncodeAll(vs, cur, last);
      DecodeAll(Reading(find), e.written.bytes + s, StripLast(last), |vs|)
        == Decoded(StripAll(vs), s, StripLast(e.ring), false)
    decreases vs, 2
  {
    hide Encode, Decode, RingFits, RingSupported, MentionsRing, Fits, Supported, Strip, StripLast;
    if vs == [] {
      assert EncodeAll(vs, cur, last).written.bytes + s == s;
    } else {
      var e := Encode(vs[0], cur, last);
      var tail := EncodeAll(vs[1..], cur, e.ring).written.bytes + s;
      assert EncodeAll(vs, cur, last).written.bytes + s == e.written.bytes + tail;
      ValueBack(find, vs[0], cur, last, tail);
      AllBack(find, vs[1..], cur, e.ring, s);
    }
  }

  // --------------------------------------------------------------------- evaluation while decoding

  /** Strict bottom-up evaluation of the commands and names in a value. */
  function Evaluate(eval: Evaluator, v: Value): Evaluated {
    match v
    case ListValue(items) =>
      var r := EvaluateAll(eval, items);
      Evaluated(ListValue(r.0), r.1)
    case CommandValue(op, argc, args) =>
      var r := EvaluateAll(eval, args);
      var e := eval(CommandValue(op, argc, r.0));
      Evaluated(e.value, r.1 || e.error)
    case DefValue(_) => eval(v)
    case _ => Evaluated(v, false)
  }

  function EvaluateAll(eval: Evaluator, vs: seq<Value>): (seq<Value>, bool) {
    if vs == [] then ([], false)
    else
      var e := Evaluate(eval, vs[0]);
      var r := EvaluateAll(eval, vs[1..]);
      ([e.value] + r.0, e.error || r.1)
  }

  function ThenEvaluate(eval: Evaluator, o: Decoded<Value>): Decoded<Value> {
    match o
    case Lost => Lost
    case Decoded(v, rest, ring, error) =>
      var e := Evaluate(eval, v);
      Decoded(e.value, rest, ring, error || e.error)
  }

  function ThenEvaluateAll(eval: Evaluator, o: Decoded<seq<Value>>): Decoded<seq<Value>> {
    match o
    case Lost => Lost
    case Decoded(vs, rest, ring, error) =>
      var r := EvaluateAll(eval, vs);
      Decoded(r.0, rest, ring, error || r.1)
  }

  /** Decoding any bytes while evaluating is decoding them first and evaluating the outcome. */
  lemma {:induction false} Fusion(host: Host, rest: seq<Byte>, last: Option<Ring>)
    ensures Decode(host, rest, last) == ThenEvaluate(host.eval, Decode(Reading(host.find), rest, last))
    decreases |rest|, 0, 0
  {
    hide DecodeBody, DecodeRing, GetInt, Evaluate;
    match GetInt(rest) {
      case Got(typ, tail, _) =>
        if typ >= 0 {
          BodyFusion(host, typ, tail, last);
        } else {
          match DecodeRing(host.find, tail, last) {
            case Got(ring, tail', _) =>
              match GetInt(tail') {
                case Got(typ', tail'', _) => BodyFusion(host, typ', tail'', ring);
                case _ =>
              }
            case _ =>
          }
        }
      case _ =>
    }
  }

  lemma LeafEvaluates(eval: Evaluator, typ: Int32, rest: seq<Byte>, last: Option<Ring>)
    requires DecodeLeaf(typ, rest, last).Got?
    ensures Evaluate(eval, DecodeLeaf(typ, rest, last).value) == Evaluated(DecodeLeaf(typ, rest, last).value, false)
  {
    hide GetLong, GetSized, DecodeCoeff, GetInts, DecodePoly, DecodeIdeal;
  }

  lemma {:induction false} BodyFusion(host: Host, typ: Int32, rest: seq<Byte>, last: Option<Ring>)
    ensures DecodeBody(host, typ, rest, last)
         == ThenEvaluate(host.eval, DecodeBody(Reading(host.find), typ, rest, last))
    decreases |rest|, 2, 0
  {
    hide DecodeAll, DecodeLeaf, GetInt, GetInts, EvaluateAll;
    if typ == LIST_CMD {
      match GetInt(rest) {
        case Got(n, tail, _) =>
          if n >= -1 {
            AllFusion(host, tail, last, n + 1);
          }
        case _ =>
      }
    } else if typ == COMMAND {
      match GetInts(rest, 2) {
        case Got(xs, tail, _) => AllFusion(host, tail, last, ArgCount(xs[1]));
        case _ =>
      }
    } else if typ != DEF_CMD && DecodeLeaf(typ, rest, last).Got? {
      LeafEvaluates(host.eval, typ, rest, last);
    }
  }

  lemma {:induction false} AllFusion(host: Host, rest: seq<Byte>, last: Option<Ring>, n: nat)
    ensures DecodeAll(host, rest, last, n) == ThenEvaluateAll(host.eval, DecodeAll(Reading(host.find), rest, last, n))
    decreases |rest|, 1, n
  {
    hide Decode, Evaluate;
    if n > 0 {
      Fusion(host, rest, last);
      match Decode(Reading(host.find), rest, last) {
        case Decoded(_, tail, ring, _) => AllFusion(host, tail, ring, n - 1);
        case _ =>
      }
    }
  }

  // -------------------------------------------------------------------------------- whole strings

  /** What travels: the value itself, if all of it can be shared. */
  predicate Sharable(v: Value, cur: Ring) { Supported(v) && (MentionsRing(v) ==> RingSupported(cur)) }

  /** `from_string` after `to_string`: the strict evaluation of the value up to signs, or nothing
      when a part of it cannot be shared or its evaluation fails, or when the ring it has to announce
      cannot be read. */
  lemma StringBack(host: Host, v: Value, cur: Ring)
    requires Fits(v, cur) && RingFits(cur) && (MentionsRing(v) ==> Unambiguous(host.find, cur))
    ensures var o, e := FromString(host, ToString(v, cur)), Evaluate(host.eval, Strip(v));
      if MentionsRing(v) && !Announced(host.find, cur) then o == None || o == Some(Nothing)
      else o == Some(if Sharable(v, cur) && !e.error then e.value else Nothing)
  {
    hide Encode, Decode, Fits, RingFits, RingSupported, Supported, MentionsRing, Strip, Evaluate, Announced, Unreadable;
    if MentionsRing(v) && !Announced(host.find, cur) {
      RingLost(host, v, cur);
    } else {
      EncodeError(v, cur, None);
      Fusion(host, ToString(v, cur), None);
      if Sharable(v, cur) {
        SharedBack(host.find, v, cur);
      } else {
        NothingBack(host);
      }
    }
  }

  lemma NothingBack(host: Host)
    ensures FromString(host, IntBytes(NONE)) == Some(Nothing)
  {
    IntBack(NONE, []);
    assert IntBytes(NONE) + [] == IntBytes(NONE);
  }

  lemma SharedBack(find: Finder, v: Value, cur: Ring)
    requires Fits(v, cur) && RingFits(cur) && Sharable(v, cur) && (MentionsRing(v) ==> Announced(find, cur))
    ensures var o := Decode(Reading(find), Encode(v, cur, None).written.bytes, None);
      o.Decoded? && o.value == Strip(v) && !o.error && o.rest == []
  {
    hide Encode, Decode, Fits, RingFits, RingSupported, Supported, MentionsRing, Strip, Announced;
    var bytes := Encode(v, cur, None).written.bytes;
    assert bytes + [] == bytes;
    ValueBack(find, v, cur, None, []);
  }

  // -------------------------------------------------------- rings that cannot be read are lost

  /** A decoder that did not get through, or knows that something was wrong. */
  predicate Failed<T>(o: Decoded<T>) { o.Lost? || o.error }

  /** The value that has to announce a ring which cannot be read is lost. */
  lemma {:induction false} ValueLost(host: Host, v: Value, cur: Ring, s: seq<Byte>)
    requires Fits(v, cur) && RingFits(cur) && Supported(v) && MentionsRing(v)
    requires host == Reading(host.find) && Unreadable(host.find, cur)
    ensures Failed(Decode(host, Encode(v, cur, None).written.bytes + s, None))
    decreases v, 1
  {
    if NeedsRing(v) {
      PrefixLost(host, v, cur, s);
    } else {
      PartsLost(host, v, cur, s);
    }
  }

  lemma PrefixLost(host: Host, v: Value, cur: Ring, s: seq<Byte>)
    requires Fits(v, cur) && RingFits(cur) && NeedsRing(v)
    requires Unreadable(host.find, cur)
    ensures Failed(Decode(host, Encode(v, cur, None).written.bytes + s, None))
  {
    hide Fits, RingFits, EncodeRing, DecodeRing, DecodeBody, EncodeBody, GetInt, IntBytes;
    var tail := IntBytes(Tag(v)) + (EncodeBody(v, cur, Some(cur)).written.bytes + s);
    assert Encode(v, cur, None).written.bytes + s == IntBytes(-1) + (EncodeRing(cur).bytes + tail);
    IntBack(-1, EncodeRing(cur).bytes + tail);
    UnreadableMisread(host.find, cur, None, tail);
  }

  lemma {:induction false} PartsLost(host: Host, v: Value, cur: Ring, s: seq<Byte>)
    requires Fits(v, cur) && RingFits(cur) && Supported(v) && MentionsRing(v) && !NeedsRing(v)
    requires host == Reading(host.find) && Unreadable(host.find, cur)
    ensures Failed(Decode(host, Encode(v, cur, None).written.bytes + s, None))
    decreases v, 0
  {
    hide GetInt, IntBytes, DecodeBody, EncodeBody, RingFits, Failed;
    var body := EncodeBody(v, cur, None).written.bytes;
    TagPositive(v, cur);
    assert Encode(v, cur, None).written.bytes + s == IntBytes(Tag(v)) + (body + s);
    IntBack(Tag(v), body + s);
    assert Decode(host, IntBytes(Tag(v)) + (body + s), None) == DecodeBody(host, Tag(v), body + s, None);
    if v.ListValue? {
      ListLost(host, v, cur, s);
    } else {
      CommandLost(host, v, cur, s);
    }
  }

  lemma {:induction false} ListLost(host: Host, v: Value, cur: Ring, s: seq<Byte>)
    requires Fits(v, cur) && RingFits(cur) && Supported(v) && MentionsRing(v) && v.ListValue?
    requires host == Reading(host.find) && Unreadable(host.find, cur)
    ensures Failed(DecodeBody(host, LIST_CMD, EncodeBody(v, cur, None).written.bytes + s, None))
    decreases v.items, 3
  {
    hide GetInt, IntBytes, DecodeAll, EncodeAll, RingFits;
    var all := EncodeAll(v.items, cur, None).written.bytes + s;
    assert EncodeBody(v, cur, None).written.bytes + s == IntBytes(|v.items| - 1) + all;
    IntBack(|v.items| - 1, all);
    AllLost(host, v.items, cur, s);
  }

  lemma {:induction false} CommandLost(host: Host, v: Value, cur: Ring, s: seq<Byte>)
    requires Fits(v, cur) && RingFits(cur) && Supported(v) && MentionsRing(v) && v.CommandValue?
    requires host == Reading(host.find) && Unreadable(host.find, cur)
    ensures Failed(DecodeBody(host, COMMAND, EncodeBody(v, cur, None).written.bytes + s, None))
    decreases v.args, 3
  {
    hide GetInts, IntsBytes, DecodeAll, EncodeAll, RingFits;
    var all := EncodeAll(v.args, cur, None).written.bytes + s;
    assert EncodeBody(v, cur, None).written.bytes + s == IntsBytes([v.op, v.argc]) + all;
    IntsBack([v.op, v.argc], all);
    AllLost(host, v.args, cur, s);
  }

  lemma {:induction false} AllLost(host: Host, vs: seq<Value>, cur: Ring, s: seq<Byte>)
    requires forall v | v in vs :: Fits(v, cur) && Supported(v)
    requires RingFits(cur) && exists v | v in vs :: MentionsRing(v)
    requires host == Reading(host.find) && Unreadable(host.find, cur)
    ensures Failed(DecodeAll(host, EncodeAll(vs, cur, None).written.bytes + s, None, |vs|))
    decreases vs, 2
  {
    hide Encode, Decode, RingFits, Fits, Supported, MentionsRing, Strip;
    var e := Encode(vs[0], cur, None);
    var tail := EncodeAll(vs[1..], cur, e.ring).written.bytes + s;
    assert EncodeAll(vs, cur, None).written.bytes + s == e.written.bytes + tail;
    if MentionsRing(vs[0]) {
      ValueLost(host, vs[0], cur, tail);
    } else {
      EncodeError(vs[0], cur, None);
      ValueBack(host.find, vs[0], cur, None, tail);
      assert vs == [vs[0]] + vs[1..];
      AllLost(host, vs[1..], cur, s);
    }
  }

  /** A value that would have to announce a ring which cannot be read never arrives: reading it back
      is undefined or yields nothing.  Rings over extension fields are of that kind, unless their
      first variable bears the name of a coefficient domain. */
  lemma RingLost(host: Host, v: Value, cur: Ring)
    requires Fits(v, cur) && RingFits(cur) && MentionsRing(v) && Unreadable(host.find, cur)
    ensures var o := FromString(host, ToString(v, cur)); o == None || o == Some(Nothing)
  {
    hide Encode, Decode, Fits, RingFits, RingSupported, Supported, MentionsRing, Evaluate, Unreadable;
    EncodeError(v, cur, None);
    Fusion(host, ToString(v, cur), None);
    if Sharable(v, cur) {
      var bytes := Encode(v, cur, None).written.bytes;
      assert bytes + [] == bytes;
      ValueLost(Reading(host.find), v, cur, []);
    } else {
      NothingBack(host);
    }
  }

  /** Neither a quoted command nor a name occurs in `v`. */
  predicate Plainly(v: Value) {
    match v
    case ListValue(items) => forall x | x in items :: Plainly(x)
    case CommandValue(_, _, _) => false
    case DefValue(_) => false
    case _ => true
  }

  lemma {:induction false} PlainEvaluates(eval: Evaluator, v: Value)
    requires Plainly(v)
    ensures Evaluate(eval, Strip(v)) == Evaluated(Strip(v), false)
    decreases v, 0
  {
    if v.ListValue? {
      PlainEvaluateAll(eval, v.items);
    }
  }

  lemma {:induction false} PlainEvaluateAll(eval: Evaluator, vs: seq<Value>)
    requires forall v | v in vs :: Plainly(v)
    ensures EvaluateAll(eval, StripAll(vs)) == (StripAll(vs), false)
    decreases vs, 1
  {
    if vs != [] {
      PlainEvaluates(eval, vs[0]);
      PlainEvaluateAll(eval, vs[1..]);
      assert StripAll(vs) == [Strip(vs[0])] + StripAll(vs[1..]);
    }
  }

  /** A value without commands and names comes out of its string as it went in exactly when every
      node, coefficient type and ring order of it is supported, no out-of-line integer in it is
      negative, and the ring it has to announce, if any, can be read. */
  lemma RoundTripExactly(host: Host, v: Value, cur: Ring)
    requires Fits(v, cur) && RingFits(cur) && Plainly(v) && (MentionsRing(v) ==> Unambiguous(host.find, cur))
    ensures FromString(host, ToString(v, cur)) == Some(v)
      <==> Sharable(v, cur) && Unsigned(v) && (MentionsRing(v) ==> Announced(host.find, cur))
  {
    hide Fits, RingFits, RingSupported, Evaluate, FromString, ToString, Plainly, Announced, Unreadable;
    StringBack(host, v, cur);
    PlainEvaluates(host.eval, v);
    StripKeeps(v);
  }

  /** The sign of an out-of-line integer is not written, and nothing else of it is lost: it comes back
      as its magnitude. */
  lemma SignIsLost(host: Host, s: Int32, z: int, cur: Ring)
    requires s >= 2 && MagnitudeFits(z) && RingFits(cur)
    ensures Fits(BigIntValue(Big(s, z)), cur)
    ensures FromString(host, ToString(BigIntValue(Big(s, z)), cur))
         == Some(BigIntValue(Big(s, if z < 0 then -z else z)))
  {
    hide RingFits, FromString, ToString, MagnitudeFits;
    StringBack(host, BigIntValue(Big(s, z)), cur);
  }
}
