/** UTF-8 as bytes: well-formed text after section 4 of RFC 3629, and where its characters start. */
module Utf8 {
  import opened Messages

  predicate IsTail(b: Byte) { 0x80 <= b <= 0xBF }

  /** How many bytes a character with lead byte `b` has; zero when no character starts so. */
  function Width(b: Byte): (w: nat)
    ensures w <= 4
  {
    if b <= 0x7F then 1
    else if 0xC2 <= b <= 0xDF then 2
    else if 0xE0 <= b <= 0xEF then 3
    else if 0xF0 <= b <= 0xF4 then 4
    else 0
  }

  /** Whether `b` may be the byte right after `lead`. */
  predicate Second(lead: Byte, b: Byte) {
    if lead == 0xE0 then 0xA0 <= b <= 0xBF
    else if lead == 0xED then 0x80 <= b <= 0x9F
    else if lead == 0xF0 then 0x90 <= b <= 0xBF
    else if lead == 0xF4 then 0x80 <= b <= 0x8F
    else IsTail(b)
  }

  /** What a strict decoder finds at the start of its input. */
  datatype Scan = Character(width: nat) | Incomplete | Invalid

  function ScanOne(s: seq<Byte>): (r: Scan)
    requires s != []
    ensures r.Character? ==> r.width == Width(s[0]) && 0 < r.width <= |s|
    ensures r.Incomplete? ==> |s| < Width(s[0])
  {
    var w := Width(s[0]);
    if w == 0 then Invalid
    else if w == 1 then Character(1)
    else if |s| == 1 then Incomplete
    else if !Second(s[0], s[1]) then Invalid
    else if w == 2 then Character(2)
    else if |s| == 2 then Incomplete
    else if !IsTail(s[2]) then Invalid
    else if w == 3 then Character(3)
    else if |s| == 3 then Incomplete
    else if !IsTail(s[3]) then Invalid
    else Character(4)
  }

  /** Where decoding stops, and why: at the end, within an unfinished character, or at a bad byte. */
  datatype Decoded = Decoded(upTo: nat, stop: Stop)

  datatype Stop = AtEnd | Unfinished | Malformed

  function Decode(s: seq<Byte>): (r: Decoded)
    ensures r.upTo <= |s|
    ensures r.stop == AtEnd ==> r.upTo == |s|
  {
    if s == [] then Decoded(0, AtEnd)
    else match ScanOne(s)
      case Invalid => Decoded(0, Malformed)
      case Incomplete => Decoded(0, Unfinished)
      case Character(w) =>
        var rest := Decode(s[w..]);
        Decoded(w + rest.upTo, rest.stop)
  }

  /** Well-formed UTF-8. */
  predicate IsText(s: seq<Byte>) { Decode(s).stop == AtEnd }

  /** Rust's test for a character boundary, which looks at one byte only. */
  predicate IsBoundary(s: seq<Byte>, i: nat) {
    i == 0 || i == |s| || (i < |s| && !IsTail(s[i]))
  }

  /** The last boundary at or before `i`. */
  function Floor(s: seq<Byte>, i: nat): (r: nat)
    requires i <= |s|
    ensures r <= i && IsBoundary(s, r)
    ensures forall j: nat | r < j <= i :: !IsBoundary(s, j)
  {
    if IsBoundary(s, i) then i else Floor(s, i - 1)
  }

  /** The bytes of the first character are one lead and tails, so no boundary lies within it. */
  lemma {:induction false} FirstCharacter(s: seq<Byte>, i: nat)
    requires s != [] && ScanOne(s).Character? && 0 < i < ScanOne(s).width
    ensures !IsBoundary(s, i)
  {
  }

  lemma {:induction false} LeadIsNoTail(s: seq<Byte>)
    requires s != [] && ScanOne(s).Character?
    ensures !IsTail(s[0])
  {
  }

  /** What follows any boundary of a text is itself a text. */
  lemma {:induction false} SuffixIsText(s: seq<Byte>, i: nat)
    requires IsText(s) && i <= |s| && IsBoundary(s, i)
    ensures IsText(s[i..])
  {
    if i == 0 {
      assert s[0..] == s;
    } else {
      var w := ScanOne(s).width;
      if i < w { FirstCharacter(s, i); }
      BoundaryInSuffix(s, w, i);
      SuffixIsText(s[w..], i - w);
      assert s[w..][i - w..] == s[i..];
    }
  }

  lemma {:induction false} BoundaryInSuffix(s: seq<Byte>, w: nat, i: nat)
    requires w <= i <= |s| && IsBoundary(s, i)
    ensures IsBoundary(s[w..], i - w)
  {
  }

  /** Decoding the first `n` bytes of a text stops at the last boundary there, unfinished or at the end. */
  ghost predicate PrefixStops(s: seq<Byte>, n: nat, d: Decoded)
    requires n <= |s|
  {
    && d.upTo == Floor(s, n) && n - Floor(s, n) <= 3
    && d.stop == (if IsBoundary(s, n) then AtEnd else Unfinished)
  }

  /** A prefix of a text decodes up to its last boundary, and is never malformed. */
  lemma {:induction false} PrefixDecodes(s: seq<Byte>, n: nat)
    requires IsText(s) && n <= |s|
    ensures PrefixStops(s, n, Decode(s[..n]))
  {
    if n == 0 {
      EmptyPrefix(s);
    } else if ScanOne(s).width <= n {
      var w := ScanOne(s).width;
      PrefixDecodes(s[w..], n - w);
      PrefixExtends(s, w, n);
    } else {
      PrefixInFirst(s, n);
    }
  }

  lemma {:induction false} EmptyPrefix(s: seq<Byte>)
    ensures PrefixStops(s, 0, Decode(s[..0]))
  {
    assert s[..0] == [];
  }

  lemma {:induction false} PrefixInFirst(s: seq<Byte>, n: nat)
    requires s != [] && ScanOne(s).Character? && 0 < n < ScanOne(s).width
    ensures PrefixStops(s, n, Decode(s[..n]))
  {
    ShortPrefix(s, n);
    FloorInFirst(s, n);
  }

  lemma {:induction false} PrefixExtends(s: seq<Byte>, w: nat, n: nat)
    requires IsText(s) && s != [] && w == ScanOne(s).width <= n <= |s|
    requires PrefixStops(s[w..], n - w, Decode(s[w..][..n - w]))
    ensures PrefixStops(s, n, Decode(s[..n]))
  {
    FloorInSuffix(s, w, n);
    DecodePrefix(s, w, n);
  }

  lemma {:induction false} DecodePrefix(s: seq<Byte>, w: nat, n: nat)
    requires s != [] && ScanOne(s) == Character(w) && w <= n <= |s|
    ensures var rest := Decode(s[w..][..n - w]);
      Decode(s[..n]) == Decoded(w + rest.upTo, rest.stop)
  {
    ScanPrefix(s, n);
    assert s[..n][w..] == s[w..][..n - w];
  }

  lemma {:induction false} ScanPrefix(s: seq<Byte>, n: nat)
    requires s != [] && ScanOne(s).Character? && ScanOne(s).width <= n <= |s|
    ensures ScanOne(s[..n]) == ScanOne(s)
  {
  }

  lemma {:induction false} ShortPrefix(s: seq<Byte>, n: nat)
    requires s != [] && ScanOne(s).Character? && 0 < n < ScanOne(s).width
    ensures Decode(s[..n]) == Decoded(0, Unfinished) && !IsBoundary(s, n)
  {
  }

  lemma {:induction false} FloorInFirst(s: seq<Byte>, n: nat)
    requires s != [] && ScanOne(s).Character? && n < ScanOne(s).width
    ensures Floor(s, n) == 0
  {
    if n > 0 {
      FirstCharacter(s, n);
      FloorInFirst(s, n - 1);
    }
  }

  /** Past the first character, boundaries are those of the rest. */
  lemma {:induction false} BoundaryInRest(s: seq<Byte>, w: nat, n: nat)
    requires IsText(s) && s != [] && w == ScanOne(s).width <= n <= |s|
    ensures IsBoundary(s[w..], n - w) <==> IsBoundary(s, n)
  {
    assert IsText(s[w..]);
    if n == w < |s| { LeadIsNoTail(s[w..]); }
  }

  lemma {:induction false} FloorInSuffix(s: seq<Byte>, w: nat, n: nat)
    requires IsText(s) && s != [] && w == ScanOne(s).width <= n <= |s|
    ensures Floor(s, n) == w + Floor(s[w..], n - w)
    ensures IsBoundary(s[w..], n - w) <==> IsBoundary(s, n)
  {
    BoundaryInRest(s, w, n);
    if !IsBoundary(s, n) {
      BoundaryInRest(s, w, w);
      FloorInSuffix(s, w, n - 1);
    }
  }

  /** A position within a text that is no boundary starts with a tail byte, which no decoder accepts. */
  lemma {:induction false} NoBoundaryIsMalformed(s: seq<Byte>, i: nat, n: nat)
    requires i < n <= |s| && !IsBoundary(s, i)
    ensures Decode(s[i..n]).stop == Malformed
  {
  }

  // -------------------------------------------------------- code points

  /** Unicode scalar values: no surrogates. */
  type Scalar = c: int | 0 <= c < 0xD800 || 0xE000 <= c < 0x11_0000 witness 0

  /** A value without its last six bits: `value / 64`, by repeated subtraction. */
  function Upper(value: nat): (r: nat)
    ensures r * 64 <= value < r * 64 + 64
  {
    if value < 64 then 0 else 1 + Upper(value - 64)
  }

  /** The last six bits, as a tail byte. */
  function LastTail(value: nat): (b: Byte)
    ensures IsTail(b) && b - 0x80 == value - Upper(value) * 64
  {
    0x80 + (value - Upper(value) * 64)
  }

  function EncodeOne(c: Scalar): (r: seq<Byte>)
    ensures 0 < |r| <= 4
  {
    var q1 := Upper(c);
    var q2 := Upper(q1);
    var q3 := Upper(q2);
    if c < 0x80 then [c]
    else if c < 0x800 then [0xC0 + q1, LastTail(c)]
    else if c < 0x1_0000 then [0xE0 + q2, LastTail(q1), LastTail(c)]
    else [0xF0 + q3, LastTail(q2), LastTail(q1), LastTail(c)]
  }

  /** One more group of six payload bits. */
  function Push(value: nat, tail: Byte): (r: nat)
    requires IsTail(tail)
    ensures Upper(r) == value && LastTail(r) == tail
  {
    var bits: int := tail - 0x80;
    value * 64 + bits
  }

  function ValueOf(s: seq<Byte>): (c: Scalar)
    requires s != [] && ScanOne(s).Character?
  {
    match Width(s[0])
    case 1 => s[0]
    case 2 => Push(s[0] - 0xC0, s[1])
    case 3 => Push(Push(s[0] - 0xE0, s[1]), s[2])
    case _ => Push(Push(Push(s[0] - 0xF0, s[1]), s[2]), s[3])
  }

  function EncodeAll(cs: seq<Scalar>): seq<Byte> {
    if cs == [] then [] else EncodeOne(cs[0]) + EncodeAll(cs[1..])
  }

  function CodePoints(s: seq<Byte>): seq<Scalar>
    requires IsText(s)
  {
    if s == [] then [] else [ValueOf(s)] + CodePoints(s[ScanOne(s).width..])
  }

  /** The encoding of a scalar value scans and reads back, whatever follows it. */
  lemma {:induction false} ScanEncoded(c: Scalar, rest: seq<Byte>)
    ensures ScanOne(EncodeOne(c) + rest) == Character(|EncodeOne(c)|)
    ensures ValueOf(EncodeOne(c) + rest) == c
  {
    var e := EncodeOne(c);
    ScanOneEncoded(c);
    ScanPrefix(e + rest, |e|);
    assert (e + rest)[..|e|] == e;
  }

  lemma {:induction false} ScanOneEncoded(c: Scalar)
    ensures ScanOne(EncodeOne(c)) == Character(|EncodeOne(c)|)
    ensures ValueOf(EncodeOne(c)) == c
  {
    if c >= 0x1_0000 { ScanFour(c); }
  }

  lemma {:induction false} ScanFour(c: Scalar)
    requires c >= 0x1_0000
    ensures ScanOne(EncodeOne(c)) == Character(4) && ValueOf(EncodeOne(c)) == c
  {
  }

  /** The layout of section 3 of RFC 3629: how many bytes a scalar value takes, and which bits each carries. */
  lemma {:induction false} EncodingLayout(c: Scalar)
    ensures var e := EncodeOne(c);
      && |e| == (if c < 0x80 then 1 else if c < 0x800 then 2 else if c < 0x1_0000 then 3 else 4)
      && (forall i | 0 < i < |e| :: 0x80 <= e[i] <= 0xBF)
      && (|e| == 1 ==> c as int == e[0] as int)
      && (|e| == 2 ==> 0xC0 <= e[0] < 0xE0 && c as int == 64 * (e[0] as int - 0xC0) + (e[1] as int - 0x80))
      && (|e| == 3 ==>
            && 0xE0 <= e[0] < 0xF0
            && c as int == 4096 * (e[0] as int - 0xE0) + 64 * (e[1] as int - 0x80) + (e[2] as int - 0x80))
      && (|e| == 4 ==>
            && 0xF0 <= e[0] < 0xF8
            && c as int == 262144 * (e[0] as int - 0xF0) + 4096 * (e[1] as int - 0x80)
                           + 64 * (e[2] as int - 0x80) + (e[3] as int - 0x80))
  {
    ScanOneEncoded(c);
  }

  lemma {:induction false} EncodeScanned(s: seq<Byte>)
    requires s != [] && ScanOne(s).Character?
    ensures EncodeOne(ValueOf(s)) == s[..ScanOne(s).width]
  {
    match Width(s[0]) {
      case 2 => EncodeTwo(s[0], s[1]); assert s[..2] == [s[0], s[1]];
      case 3 => EncodeThree(s[0], s[1], s[2]); assert s[..3] == [s[0], s[1], s[2]];
      case 4 => EncodeFour(s[0], s[1], s[2], s[3]); assert s[..4] == [s[0], s[1], s[2], s[3]];
      case _ =>
    }
  }

  lemma {:induction false} EncodeTwo(a: Byte, b: Byte)
    requires Width(a) == 2 && Second(a, b)
    ensures EncodeOne(Push(a - 0xC0, b)) == [a, b]
  {
  }

  lemma {:induction false} EncodeThree(a: Byte, b: Byte, c: Byte)
    requires Width(a) == 3 && Second(a, b) && IsTail(c)
    ensures var value := Push(Push(a - 0xE0, b), c);
      (value < 0xD800 || 0xE000 <= value < 0x11_0000) && EncodeOne(value) == [a, b, c]
  {
  }

  lemma {:induction false} EncodeFour(a: Byte, b: Byte, c: Byte, d: Byte)
    requires Width(a) == 4 && Second(a, b) && IsTail(c) && IsTail(d)
    ensures var value := Push(Push(Push(a - 0xF0, b), c), d);
      0x1_0000 <= value < 0x11_0000 && EncodeOne(value) == [a, b, c, d]
  {
    FourBytesRange(a, b, c, d);
    EncodeWide(Push(Push(Push(a - 0xF0, b), c), d));
  }

  /** Four bytes encode values from 0x10000 to 0x10FFFF. */
  lemma {:induction false} FourBytesRange(a: Byte, b: Byte, c: Byte, d: Byte)
    requires Width(a) == 4 && Second(a, b) && IsTail(c) && IsTail(d)
    ensures 16 <= Push(a - 0xF0, b) < 272
    ensures 0x1_0000 <= Push(Push(Push(a - 0xF0, b), c), d) < 0x11_0000
  {
  }

  lemma {:induction false} EncodeWide(value: Scalar)
    requires value >= 0x1_0000
    ensures EncodeOne(value) ==
      [0xF0 + Upper(Upper(Upper(value))), LastTail(Upper(Upper(value))), LastTail(Upper(value)), LastTail(value)]
  {
  }

  /** Every sequence of scalar values encodes to a text, which decodes to it. */
  lemma {:induction false} EncodedIsText(cs: seq<Scalar>)
    ensures IsText(EncodeAll(cs)) && CodePoints(EncodeAll(cs)) == cs
  {
    if cs != [] {
      EncodedIsText(cs[1..]);
      ScanEncoded(cs[0], EncodeAll(cs[1..]));
      var s := EncodeAll(cs);
      assert s[|EncodeOne(cs[0])|..] == EncodeAll(cs[1..]);
    }
  }

  lemma {:induction false} EncodeAllCons(c: Scalar, cs: seq<Scalar>, s: seq<Byte>, w: nat)
    requires w <= |s| && EncodeOne(c) == s[..w] && EncodeAll(cs) == s[w..]
    ensures EncodeAll([c] + cs) == s
  {
    assert ([c] + cs)[1..] == cs;
    assert s[..w] + s[w..] == s;
  }

  /** And every text is the encoding of its code points, so texts are exactly the encodings. */
  lemma {:induction false} TextIsEncoded(s: seq<Byte>)
    requires IsText(s)
    ensures EncodeAll(CodePoints(s)) == s
  {
    if s != [] {
      var w := ScanOne(s).width;
      TextIsEncoded(s[w..]);
      EncodeScanned(s);
      EncodeAllCons(ValueOf(s), CodePoints(s[w..]), s, w);
    }
  }
}
