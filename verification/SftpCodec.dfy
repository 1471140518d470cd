/** The wire format of yazi-sftp: the data types of section 5 of RFC 4251 driven by a schema, file
    attributes, and the packet frame of section 3 of draft-ietf-secsh-filexfer-02. */
module SftpCodec {
  import opened Ordering
  import opened Wrappers
  import opened SftpMaps

  // --- Big-endian numbers

  function Pow256(k: nat): nat { if k == 0 then 1 else 256 * Pow256(k - 1) }

  /** The last k bytes of a number, most significant first. */
  function Be(k: nat, n: nat): (b: Bytes)
    ensures |b| == k
  {
    if k == 0 then [] else Be(k - 1, n / 256) + [n % 256]
  }

  function UnBe(b: Bytes): nat {
    if b == [] then 0 else UnBe(b[..|b| - 1]) * 256 + b[|b| - 1]
  }

  lemma {:induction false} BeRoundTrip(k: nat, n: nat)
    requires n < Pow256(k)
    ensures UnBe(Be(k, n)) == n
  {
    if k > 0 {
      BeRoundTrip(k - 1, n / 256);
      assert Be(k, n)[..k - 1] == Be(k - 1, n / 256);
    }
  }

  lemma {:induction false} UnBeRoundTrip(b: Bytes)
    ensures UnBe(b) < Pow256(|b|) && Be(|b|, UnBe(b)) == b
  {
    if b != [] {
      UnBeRoundTrip(b[..|b| - 1]);
      assert b == b[..|b| - 1] + [b[|b| - 1]];
    }
  }

  const MAX32: nat := 0x1_0000_0000
  const MAX64: nat := 0x1_0000_0000_0000_0000

  lemma PowersOf256()
    ensures Pow256(4) == MAX32 && Pow256(8) == MAX64
  {
    assert Pow256(2) == 256 * Pow256(1);
    assert Pow256(4) == 256 * Pow256(3);
    assert Pow256(6) == 256 * Pow256(5);
    assert Pow256(8) == 256 * Pow256(7);
  }

  // --- Text is UTF-8

  predicate Tail(b: Bytes, i: nat) { i < |b| && 0x80 <= b[i] <= 0xBF }

  /** The length of the character at the front, 0 when there is none. */
  function CharLen(b: Bytes): (n: nat)
    ensures n <= |b|
  {
    if b == [] then 0
    else if b[0] < 0x80 then 1
    else if 0xC2 <= b[0] <= 0xDF && Tail(b, 1) then 2
    else if 0xE0 <= b[0] <= 0xEF && Tail(b, 1) && Tail(b, 2) &&
            (b[0] == 0xE0 ==> b[1] >= 0xA0) && (b[0] == 0xED ==> b[1] <= 0x9F) then 3
    else if 0xF0 <= b[0] <= 0xF4 && Tail(b, 1) && Tail(b, 2) && Tail(b, 3) &&
            (b[0] == 0xF0 ==> b[1] >= 0x90) && (b[0] == 0xF4 ==> b[1] <= 0x8F) then 4
    else 0
  }

  predicate Utf8(b: Bytes)
    decreases |b|
  {
    b == [] || (CharLen(b) > 0 && Utf8(b[CharLen(b)..]))
  }

  // --- Schemas and values

  /** Pairs (a map) and Rest (raw bytes) run to the end of the input. */
  datatype Schema =
    | U8 | U32 | U64
    | Text | Blob
    | Listing(elem: Schema)
    | Record(fields: seq<Schema>)
    | Choice(variants: nat)
    | Nothing
    | Attributes
    | Pairs
    | Rest

  /** The extended attributes are a map, like the pairs of a value below. */
  datatype Attrs = Attrs(size: Option<nat>, uid: Option<nat>, gid: Option<nat>, perm: Option<nat>,
                         atime: Option<nat>, mtime: Option<nat>, extended: seq<Pair>)

  datatype Value =
    | Num(n: nat)
    | Raw(bytes: Bytes)
    | Vals(vs: seq<Value>)
    | Void
    | Attr(attrs: Attrs)
    | Map(pairs: seq<Pair>)

  const NO_ATTRS := Attrs(None, None, None, None, None, None, [])

  // --- Encoding

  function Lengthed(b: Bytes): Bytes { Be(4, |b|) + b }

  function EncPairs(ps: seq<Pair>): Bytes {
    if ps == [] then [] else Lengthed(ps[0].key) + Lengthed(ps[0].value) + EncPairs(ps[1..])
  }

  /** The count of a map is cut to 32 bits, and so many of its pairs are written. */
  function Taken(ps: seq<Pair>): seq<Pair> { ps[..|ps| % MAX32] }

  function OrZero(o: Option<nat>): nat { if o.Some? then o.value else 0 }

  predicate HasOwner(a: Attrs) { a.uid.Some? || a.gid.Some? }

  predicate HasTimes(a: Attrs) { a.atime.Some? || a.mtime.Some? }

  /** Which parts of the attributes follow. */
  datatype Flags = Flags(size: bool, owner: bool, perm: bool, times: bool, extended: bool)

  function FlagsOf(a: Attrs): Flags { Flags(a.size.Some?, HasOwner(a), a.perm.Some?, HasTimes(a), a.extended != []) }

  function FlagBits(f: Flags): nat {
    (if f.size then 1 else 0) + (if f.owner then 2 else 0) + (if f.perm then 4 else 0) +
    (if f.times then 8 else 0) + (if f.extended then 0x8000_0000 else 0)
  }

  /** Reads the flag bits; the others mean nothing here. */
  function BitsToFlags(n: nat): Flags {
    Flags(n % 2 == 1, n / 2 % 2 == 1, n / 4 % 2 == 1, n / 8 % 2 == 1, n / 0x8000_0000 % 2 == 1)
  }

  function EncAttrs(a: Attrs): Bytes {
    Be(4, FlagBits(FlagsOf(a)))
    + (if a.size.Some? then Be(8, a.size.value) else [])
    + (if HasOwner(a) then Be(4, OrZero(a.uid)) + Be(4, OrZero(a.gid)) else [])
    + (if a.perm.Some? then Be(4, a.perm.value) else [])
    + (if HasTimes(a) then Be(4, OrZero(a.atime)) + Be(4, OrZero(a.mtime)) else [])
    + (if a.extended != [] then Be(4, |a.extended|) + EncPairs(Taken(a.extended)) else [])
  }

  function Enc(s: Schema, v: Value): Bytes
    decreases s, 1, 0
  {
    match (s, v)
    case (U8, Num(n)) => Be(1, n)
    case (U32, Num(n)) => Be(4, n)
    case (U64, Num(n)) => Be(8, n)
    case (Choice(_), Num(n)) => Be(4, n)
    case (Text, Raw(b)) => Lengthed(b)
    case (Blob, Raw(b)) => Lengthed(b)
    case (Rest, Raw(b)) => b
    case (Listing(e), Vals(vs)) => Be(4, |vs|) + EncEach(e, vs)
    case (Record(fs), Vals(vs)) => EncFields(fs, vs)
    case (Attributes, Attr(a)) => EncAttrs(a)
    case (Pairs, Map(ps)) => EncPairs(ps)
    case _ => []
  }

  function EncEach(e: Schema, vs: seq<Value>): Bytes
    decreases e, 2, |vs|
  {
    if vs == [] then [] else Enc(e, vs[0]) + EncEach(e, vs[1..])
  }

  function EncFields(fs: seq<Schema>, vs: seq<Value>): Bytes
    decreases fs, 0, 0
  {
    if fs == [] || vs == [] then [] else Enc(fs[0], vs[0]) + EncFields(fs[1..], vs[1..])
  }

  // --- Decoding

  datatype Res<+T> = Err | Ok(value: T, rest: Bytes)

  function DecNum(k: nat, input: Bytes): Res<nat> {
    if |input| < k then Err else Ok(UnBe(input[..k]), input[k..])
  }

  function DecLengthed(input: Bytes): Res<Bytes> {
    match DecNum(4, input)
    case Err => Err
    case Ok(n, rest) => if |rest| < n then Err else Ok(rest[..n], rest[n..])
  }

  function DecText(input: Bytes): Res<Bytes> {
    match DecLengthed(input)
    case Err => Err
    case Ok(b, rest) => if Utf8(b) then Ok(b, rest) else Err
  }

  function DecPair(input: Bytes): Res<Pair> {
    match DecText(input)
    case Err => Err
    case Ok(k, rest) =>
      match DecText(rest)
      case Err => Err
      case Ok(v, rest') => Ok(Pair(k, v), rest')
  }

  lemma {:induction false} DecPairConsumes(input: Bytes)
    ensures DecPair(input).Ok? ==> |DecPair(input).rest| < |input|
  {}

  /** Keys and values until the input is used up. */
  function DecPairs(input: Bytes): Res<seq<Pair>>
    decreases |input|
  {
    if input == [] then Ok([], [])
    else
      DecPairConsumes(input);
      match DecPair(input)
      case Err => Err
      case Ok(p, rest) =>
        match DecPairs(rest)
        case Err => Err
        case Ok(ps, end) => Ok([p] + ps, end)
  }

  function DecPairsN(n: nat, input: Bytes): Res<seq<Pair>>
    decreases n
  {
    if n == 0 then Ok([], input)
    else
      match DecPair(input)
      case Err => Err
      case Ok(p, rest) =>
        match DecPairsN(n - 1, rest)
        case Err => Err
        case Ok(ps, end) => Ok([p] + ps, end)
  }

  /** A number that is read only when its flag is set. */
  function DecOptional(flag: bool, k: nat, input: Bytes): Res<Option<nat>> {
    if !flag then Ok(None, input)
    else match DecNum(k, input)
      case Err => Err
      case Ok(n, rest) => Ok(Some(n), rest)
  }

  function DecExtended(flag: bool, input: Bytes): Res<seq<Pair>> {
    if !flag then Ok([], input)
    else match DecNum(4, input)
      case Err => Err
      case Ok(n, rest) => DecPairsN(n, rest)
  }

  /** Two numbers that come together. */
  function DecTwo(flag: bool, input: Bytes): Res<(Option<nat>, Option<nat>)> {
    match DecOptional(flag, 4, input)
    case Err => Err
    case Ok(x, rest) =>
      match DecOptional(flag, 4, rest)
      case Err => Err
      case Ok(y, rest') => Ok((x, y), rest')
  }

  /** At the end of the input no attributes are read as empty ones; otherwise every element takes at least
      four bytes, so the bytes run out before the count of remaining elements does. */
  function DecAttrs(input: Bytes): Res<Attrs> {
    if input == [] then Ok(NO_ATTRS, [])
    else match DecNum(4, input)
      case Err => Err
      case Ok(bits, rest) => DecParts(BitsToFlags(bits), rest)
  }

  function DecParts(f: Flags, input: Bytes): Res<Attrs> {
    match DecOptional(f.size, 8, input)
    case Err => Err
    case Ok(size, rest) =>
      match DecTwo(f.owner, rest)
      case Err => Err
      case Ok(owner, rest') => DecLaterParts(f, NO_ATTRS.(size := size, uid := owner.0, gid := owner.1), rest')
  }

  function DecLaterParts(f: Flags, a: Attrs, input: Bytes): Res<Attrs> {
    match DecOptional(f.perm, 4, input)
    case Err => Err
    case Ok(perm, rest) =>
      match DecTwo(f.times, rest)
      case Err => Err
      case Ok(times, rest') =>
        match DecExtended(f.extended, rest')
        case Err => Err
        case Ok(ext, end) => Ok(a.(perm := perm, atime := times.0, mtime := times.1, extended := Collected(ext)), end)
  }

  function NumRes(r: Res<nat>, limit: nat): Res<Value> {
    match r case Err => Err case Ok(n, rest) => if n < limit then Ok(Num(n), rest) else Err
  }

  function RawRes(r: Res<Bytes>): Res<Value> {
    match r case Err => Err case Ok(b, rest) => Ok(Raw(b), rest)
  }

  function ValsRes(r: Res<seq<Value>>): Res<Value> {
    match r case Err => Err case Ok(vs, rest) => Ok(Vals(vs), rest)
  }

  function Dec(s: Schema, input: Bytes): Res<Value>
    decreases s, 1, 0
  {
    match s
    case U8 => NumRes(DecNum(1, input), 256)
    case U32 => NumRes(DecNum(4, input), MAX32)
    case U64 => NumRes(DecNum(8, input), MAX64)
    case Choice(n) => NumRes(DecNum(4, input), n)
    case Text => RawRes(DecText(input))
    case Blob => RawRes(DecLengthed(input))
    case Rest => Ok(Raw(input), [])
    case Nothing => Ok(Void, input)
    case Listing(e) =>
      (match DecNum(4, input)
       case Err => Err
       case Ok(n, rest) => ValsRes(DecEach(e, n, rest)))
    case Record(fs) => ValsRes(DecFields(fs, input))
    case Attributes => (match DecAttrs(input) case Err => Err case Ok(a, rest) => Ok(Attr(a), rest))
    case Pairs => (match DecPairs(input) case Err => Err case Ok(ps, rest) => Ok(Map(Collected(ps)), rest))
  }

  function DecEach(e: Schema, n: nat, input: Bytes): Res<seq<Value>>
    decreases e, 2, n
  {
    if n == 0 then Ok([], input)
    else match Dec(e, input)
      case Err => Err
      case Ok(v, rest) =>
        match DecEach(e, n - 1, rest)
        case Err => Err
        case Ok(vs, end) => Ok([v] + vs, end)
  }

  function DecFields(fs: seq<Schema>, input: Bytes): Res<seq<Value>>
    decreases fs, 0, 0
  {
    if fs == [] then Ok([], input)
    else match Dec(fs[0], input)
      case Err => Err
      case Ok(v, rest) =>
        match DecFields(fs[1..], rest)
        case Err => Err
        case Ok(vs, end) => Ok([v] + vs, end)
  }

  /** A value decoded from the whole of the input. */
  function Once(s: Schema, input: Bytes): Option<Value> {
    match Dec(s, input)
    case Err => None
    case Ok(v, rest) => if rest == [] then Some(v) else None
  }

  // --- Which values a schema has, and where it may end

  predicate Fits32(o: Option<nat>) { o.Some? ==> o.value < MAX32 }

  predicate PairFits(p: Pair) { |p.key| < MAX32 && |p.value| < MAX32 && Utf8(p.key) && Utf8(p.value) }

  predicate PairsFit(ps: seq<Pair>) { forall i :: 0 <= i < |ps| ==> PairFits(ps[i]) }

  predicate AttrsInRange(a: Attrs) {
    && (a.size.Some? ==> a.size.value < MAX64) && Fits32(a.uid) && Fits32(a.gid) && Fits32(a.perm)
    && Fits32(a.atime) && Fits32(a.mtime) && |a.extended| < MAX32 && PairsFit(a.extended) && KeysApart(a.extended)
  }

  /** Owner ids come in pairs, and so do times. */
  predicate Paired(a: Attrs) { (a.uid.Some? <==> a.gid.Some?) && (a.atime.Some? <==> a.mtime.Some?) }

  predicate Fits(s: Schema, v: Value)
    decreases s, 1, 0
  {
    match (s, v)
    case (U8, Num(n)) => n < 256
    case (U32, Num(n)) => n < MAX32
    case (U64, Num(n)) => n < MAX64
    case (Choice(k), Num(n)) => n < k && n < MAX32
    case (Text, Raw(b)) => |b| < MAX32 && Utf8(b)
    case (Blob, Raw(b)) => |b| < MAX32
    case (Rest, Raw(b)) => true
    case (Nothing, Void) => true
    case (Listing(e), Vals(vs)) => |vs| < MAX32 && forall i :: 0 <= i < |vs| ==> Fits(e, vs[i])
    case (Record(fs), Vals(vs)) => FieldsFit(fs, vs)
    case (Attributes, Attr(a)) => AttrsInRange(a) && Paired(a)
    case (Pairs, Map(ps)) => PairsFit(ps) && KeysApart(ps)
    case _ => false
  }

  predicate FieldsFit(fs: seq<Schema>, vs: seq<Value>)
    decreases fs, 0, 0
  {
    |vs| == |fs| && (fs != [] ==> Fits(fs[0], vs[0]) && FieldsFit(fs[1..], vs[1..]))
  }

  /** Nothing inside runs to the end of the input. */
  predicate Closed(s: Schema)
    decreases s, 1, 0
  {
    match s
    case Pairs => false
    case Rest => false
    case Listing(e) => Closed(e)
    case Record(fs) => AllClosed(fs)
    case _ => true
  }

  predicate AllClosed(fs: seq<Schema>)
    decreases fs, 0, 0
  {
    fs == [] || (Closed(fs[0]) && AllClosed(fs[1..]))
  }

  /** What runs to the end of the input stands at the end. */
  predicate EndsWell(s: Schema)
    decreases s, 1, 0
  {
    match s
    case Pairs => true
    case Rest => true
    case Record(fs) => LastEndsWell(fs)
    case _ => Closed(s)
  }

  predicate LastEndsWell(fs: seq<Schema>)
    decreases fs, 0, 0
  {
    fs == [] || (if |fs| == 1 then EndsWell(fs[0]) else Closed(fs[0]) && LastEndsWell(fs[1..]))
  }

  // --- What is encoded is decoded

  lemma {:induction false} NumRoundTrip(k: nat, n: nat, rest: Bytes)
    requires n < Pow256(k)
    ensures DecNum(k, Be(k, n) + rest) == Ok(n, rest)
  {
    BeRoundTrip(k, n);
    assert (Be(k, n) + rest)[..k] == Be(k, n) && (Be(k, n) + rest)[k..] == rest;
  }

  lemma {:induction false} Num32RoundTrip(n: nat, rest: Bytes)
    requires n < MAX32
    ensures DecNum(4, Be(4, n) + rest) == Ok(n, rest)
  {
    PowersOf256();
    NumRoundTrip(4, n, rest);
  }

  lemma {:induction false} Num64RoundTrip(n: nat, rest: Bytes)
    requires n < MAX64
    ensures DecNum(8, Be(8, n) + rest) == Ok(n, rest)
  {
    PowersOf256();
    NumRoundTrip(8, n, rest);
  }

  lemma {:induction false} LengthedRoundTrip(b: Bytes, rest: Bytes)
    requires |b| < MAX32
    ensures DecLengthed(Lengthed(b) + rest) == Ok(b, rest)
  {
    Num32RoundTrip(|b|, b + rest);
    assert Lengthed(b) + rest == Be(4, |b|) + (b + rest);
    assert (b + rest)[..|b|] == b && (b + rest)[|b|..] == rest;
  }

  lemma {:induction false} PairRoundTrip(p: Pair, rest: Bytes)
    requires PairFits(p)
    ensures DecPair(Lengthed(p.key) + Lengthed(p.value) + rest) == Ok(p, rest)
  {
    assert Lengthed(p.key) + Lengthed(p.value) + rest == Lengthed(p.key) + (Lengthed(p.value) + rest);
    LengthedRoundTrip(p.key, Lengthed(p.value) + rest);
    LengthedRoundTrip(p.value, rest);
  }

  lemma {:induction false} PairsSplit(ps: seq<Pair>, rest: Bytes)
    requires ps != []
    ensures EncPairs(ps) + rest == Lengthed(ps[0].key) + Lengthed(ps[0].value) + (EncPairs(ps[1..]) + rest)
  {}

  lemma {:induction false} FirstPairDecodes(ps: seq<Pair>, rest: Bytes)
    requires ps != [] && PairFits(ps[0])
    ensures DecPair(EncPairs(ps) + rest) == Ok(ps[0], EncPairs(ps[1..]) + rest)
  {
    PairsSplit(ps, rest);
    PairRoundTrip(ps[0], EncPairs(ps[1..]) + rest);
  }

  lemma {:induction false} PairsNStep(n: nat, input: Bytes, p: Pair, rest: Bytes, ps: seq<Pair>, end: Bytes)
    requires DecPair(input) == Ok(p, rest) && DecPairsN(n, rest) == Ok(ps, end)
    ensures DecPairsN(n + 1, input) == Ok([p] + ps, end)
  {}

  lemma {:induction false} PairsNRoundTrip(ps: seq<Pair>, rest: Bytes)
    requires PairsFit(ps)
    ensures DecPairsN(|ps|, EncPairs(ps) + rest) == Ok(ps, rest)
  {
    if ps == [] {
      assert EncPairs(ps) + rest == rest;
    } else {
      var more := EncPairs(ps[1..]) + rest;
      PairsNRoundTrip(ps[1..], rest);
      FirstPairDecodes(ps, rest);
      PairsNStep(|ps| - 1, EncPairs(ps) + rest, ps[0], more, ps[1..], rest);
      assert [ps[0]] + ps[1..] == ps;
    }
  }

  lemma {:induction false} PairsStep(input: Bytes, p: Pair, rest: Bytes, ps: seq<Pair>)
    requires DecPair(input) == Ok(p, rest) && DecPairs(rest) == Ok(ps, [])
    ensures DecPairs(input) == Ok([p] + ps, [])
  {
    DecPairConsumes(input);
  }

  lemma {:induction false} PairsRoundTrip(ps: seq<Pair>)
    requires PairsFit(ps)
    ensures DecPairs(EncPairs(ps)) == Ok(ps, [])
  {
    if ps != [] {
      var more := EncPairs(ps[1..]);
      PairRoundTrip(ps[0], more);
      PairsRoundTrip(ps[1..]);
      PairsStep(EncPairs(ps), ps[0], more, ps[1..]);
      assert [ps[0]] + ps[1..] == ps;
    }
  }

  lemma {:induction false} FlagsRoundTrip(f: Flags)
    ensures BitsToFlags(FlagBits(f)) == f && FlagBits(f) < MAX32
  {}

  /** The attributes with the missing half of a pair filled in by zero. */
  function Completed(a: Attrs): Attrs {
    a.(uid := if HasOwner(a) then Some(OrZero(a.uid)) else None,
       gid := if HasOwner(a) then Some(OrZero(a.gid)) else None,
       atime := if HasTimes(a) then Some(OrZero(a.atime)) else None,
       mtime := if HasTimes(a) then Some(OrZero(a.mtime)) else None)
  }

  function IfFlag(flag: bool, b: Bytes): Bytes { if flag then b else [] }

  lemma {:induction false} OptionalRoundTrip(flag: bool, k: nat, n: nat, rest: Bytes)
    requires DecNum(k, Be(k, n) + rest) == Ok(n, rest)
    ensures DecOptional(flag, k, IfFlag(flag, Be(k, n)) + rest) == Ok(if flag then Some(n) else None, rest)
  {
    assert [] + rest == rest;
  }

  lemma {:induction false} TwoRoundTrip(flag: bool, x: nat, y: nat, rest: Bytes)
    requires x < MAX32 && y < MAX32
    ensures DecTwo(flag, IfFlag(flag, Be(4, x) + Be(4, y)) + rest) ==
            Ok((if flag then Some(x) else None, if flag then Some(y) else None), rest)
  {
    if flag {
      var more := Be(4, y) + rest;
      assert Be(4, x) + Be(4, y) + rest == Be(4, x) + more;
      Num32RoundTrip(x, more);
      Num32RoundTrip(y, rest);
    } else {
      assert [] + rest == rest;
    }
  }

  lemma {:induction false} CountRoundTrip(n: nat, b: Bytes, rest: Bytes)
    requires n < MAX32
    ensures DecExtended(true, Be(4, n) + b + rest) == DecPairsN(n, b + rest)
  {
    Reassociate(Be(4, n), b, rest);
    Num32RoundTrip(n, b + rest);
  }

  lemma {:induction false} ExtendedRoundTrip(ps: seq<Pair>, rest: Bytes)
    requires |ps| < MAX32 && PairsFit(ps)
    ensures DecExtended(ps != [], IfFlag(ps != [], Be(4, |ps|) + EncPairs(ps)) + rest) == Ok(ps, rest)
  {
    if ps == [] {
      assert [] + rest == rest;
    } else {
      PairsNRoundTrip(ps, rest);
      CountRoundTrip(|ps|, EncPairs(ps), rest);
    }
  }

  /** The parts of the encoding of attributes. */
  function SizePart(a: Attrs): Bytes { IfFlag(a.size.Some?, Be(8, OrZero(a.size))) }
  function OwnerPart(a: Attrs): Bytes { IfFlag(HasOwner(a), Be(4, OrZero(a.uid)) + Be(4, OrZero(a.gid))) }
  function PermPart(a: Attrs): Bytes { IfFlag(a.perm.Some?, Be(4, OrZero(a.perm))) }
  function TimesPart(a: Attrs): Bytes { IfFlag(HasTimes(a), Be(4, OrZero(a.atime)) + Be(4, OrZero(a.mtime))) }
  function ExtendedPart(a: Attrs): Bytes { IfFlag(a.extended != [], Be(4, |a.extended|) + EncPairs(Taken(a.extended))) }

  lemma {:induction false} JoinParts(a: Bytes, b: Bytes, c: Bytes, d: Bytes, e: Bytes, f: Bytes, rest: Bytes)
    ensures a + b + c + d + e + f + rest == a + (b + (c + (d + (e + (f + rest)))))
  {}

  lemma {:induction false} LaterPartsDecode(a: Attrs, b: Attrs, rest: Bytes)
    requires AttrsInRange(a)
    ensures DecLaterParts(FlagsOf(a), b, PermPart(a) + (TimesPart(a) + (ExtendedPart(a) + rest))) ==
            Ok(b.(perm := a.perm, atime := Completed(a).atime, mtime := Completed(a).mtime, extended := a.extended), rest)
  {
    Num32RoundTrip(OrZero(a.perm), TimesPart(a) + (ExtendedPart(a) + rest));
    OptionalRoundTrip(a.perm.Some?, 4, OrZero(a.perm), TimesPart(a) + (ExtendedPart(a) + rest));
    TwoRoundTrip(HasTimes(a), OrZero(a.atime), OrZero(a.mtime), ExtendedPart(a) + rest);
    assert Taken(a.extended) == a.extended;
    ExtendedRoundTrip(a.extended, rest);
    CollectedHolds(a.extended);
  }

  lemma {:induction false} PartsStep(f: Flags, input: Bytes, size: Option<nat>, rest: Bytes, owner: (Option<nat>,
      Option<nat>), rest': Bytes)
    requires DecOptional(f.size, 8, input) == Ok(size, rest) && DecTwo(f.owner, rest) == Ok(owner, rest')
    ensures DecParts(f, input) == DecLaterParts(f, NO_ATTRS.(size := size, uid := owner.0, gid := owner.1), rest')
  {}

  lemma {:induction false} PartsDecode(a: Attrs, rest: Bytes)
    requires AttrsInRange(a)
    ensures DecParts(FlagsOf(a), SizePart(a) + (OwnerPart(a) + (PermPart(a) + (TimesPart(a) + (ExtendedPart(a) + rest))))) ==
            Ok(Completed(a), rest)
  {
    var later := PermPart(a) + (TimesPart(a) + (ExtendedPart(a) + rest));
    Num64RoundTrip(OrZero(a.size), OwnerPart(a) + later);
    OptionalRoundTrip(a.size.Some?, 8, OrZero(a.size), OwnerPart(a) + later);
    TwoRoundTrip(HasOwner(a), OrZero(a.uid), OrZero(a.gid), later);
    var c := Completed(a);
    PartsStep(FlagsOf(a), SizePart(a) + (OwnerPart(a) + later), a.size, OwnerPart(a) + later, (c.uid, c.gid), later);
    LaterPartsDecode(a, NO_ATTRS.(size := a.size, uid := c.uid, gid := c.gid), rest);
  }

  lemma {:induction false} AttrsDecode(a: Attrs, rest: Bytes)
    requires AttrsInRange(a)
    ensures DecAttrs(EncAttrs(a) + rest) == Ok(Completed(a), rest)
  {
    FlagsRoundTrip(FlagsOf(a));
    var bits := FlagBits(FlagsOf(a));
    assert EncAttrs(a) == Be(4, bits) + SizePart(a) + OwnerPart(a) + PermPart(a) + TimesPart(a) + ExtendedPart(a);
    JoinParts(Be(4, bits), SizePart(a), OwnerPart(a), PermPart(a), TimesPart(a), ExtendedPart(a), rest);
    var parts := SizePart(a) + (OwnerPart(a) + (PermPart(a) + (TimesPart(a) + (ExtendedPart(a) + rest))));
    Num32RoundTrip(bits, parts);
    PartsDecode(a, rest);
  }

  /** Attributes come back completed; so they come back as they were exactly when owner ids and times are
      given in pairs. */
  lemma {:induction false} AttrsRoundTripIff(a: Attrs, rest: Bytes)
    requires AttrsInRange(a)
    ensures DecAttrs(EncAttrs(a) + rest) == Ok(Completed(a), rest)
    ensures DecAttrs(EncAttrs(a) + rest) == Ok(a, rest) <==> Paired(a)
  {
    AttrsDecode(a, rest);
  }

  /** An owner without a group does not come back as it was. */
  lemma {:induction false} LoneOwnerIsCompleted(n: nat)
    requires n < MAX32
    ensures var a := NO_ATTRS.(uid := Some(n));
      DecAttrs(EncAttrs(a)) == Ok(a.(gid := Some(0)), []) && DecAttrs(EncAttrs(a)) != Ok(a, [])
  {
    var a := NO_ATTRS.(uid := Some(n));
    AttrsRoundTripIff(a, []);
    assert EncAttrs(a) + [] == EncAttrs(a);
  }

  lemma {:induction false} EachStep(e: Schema, n: nat, input: Bytes, v: Value, rest: Bytes, vs: seq<Value>,
      end: Bytes)
    requires Dec(e, input) == Ok(v, rest) && DecEach(e, n, rest) == Ok(vs, end)
    ensures DecEach(e, n + 1, input) == Ok([v] + vs, end)
  {}

  lemma {:induction false} FieldsStep(fs: seq<Schema>, input: Bytes, v: Value, rest: Bytes, vs: seq<Value>,
      end: Bytes)
    requires fs != [] && Dec(fs[0], input) == Ok(v, rest) && DecFields(fs[1..], rest) == Ok(vs, end)
    ensures DecFields(fs, input) == Ok([v] + vs, end)
  {}

  lemma {:induction false} EncEachCons(e: Schema, v: Value, vs: seq<Value>)
    ensures EncEach(e, [v] + vs) == Enc(e, v) + EncEach(e, vs)
  {
    assert ([v] + vs)[1..] == vs;
  }

  lemma {:induction false} EncFieldsCons(fs: seq<Schema>, v: Value, vs: seq<Value>)
    requires fs != []
    ensures EncFields(fs, [v] + vs) == Enc(fs[0], v) + EncFields(fs[1..], vs)
  {
    assert ([v] + vs)[1..] == vs;
  }

  lemma {:induction false} Reassociate(a: Bytes, b: Bytes, c: Bytes)
    ensures a + b + c == a + (b + c)
  {}

  /** Decoding an encoding followed by anything gives back the value and what followed. */
  lemma {:induction false} RoundTrip(s: Schema, v: Value, rest: Bytes)
    requires Closed(s) && Fits(s, v)
    ensures Dec(s, Enc(s, v) + rest) == Ok(v, rest)
    decreases s, 1, 0
  {
    match (s, v) {
      case (U8, Num(n)) => assert Pow256(1) == 256; NumRoundTrip(1, n, rest);
      case (U32, Num(n)) => Num32RoundTrip(n, rest);
      case (U64, Num(n)) => Num64RoundTrip(n, rest);
      case (Choice(_), Num(n)) => Num32RoundTrip(n, rest);
      case (Text, Raw(b)) => LengthedRoundTrip(b, rest);
      case (Blob, Raw(b)) => LengthedRoundTrip(b, rest);
      case (Nothing, Void) => assert [] + rest == rest;
      case (Listing(e), Vals(vs)) =>
        assert Be(4, |vs|) + EncEach(e, vs) + rest == Be(4, |vs|) + (EncEach(e, vs) + rest);
        Num32RoundTrip(|vs|, EncEach(e, vs) + rest);
        EachRoundTrip(e, vs, rest);
      case (Record(fs), Vals(vs)) => FieldsRoundTrip(fs, vs, rest);
      case (Attributes, Attr(a)) => AttrsRoundTripIff(a, rest);
    }
  }

  lemma {:induction false} EachRoundTrip(e: Schema, vs: seq<Value>, rest: Bytes)
    requires Closed(e) && forall i :: 0 <= i < |vs| ==> Fits(e, vs[i])
    ensures DecEach(e, |vs|, EncEach(e, vs) + rest) == Ok(vs, rest)
    decreases e, 2, |vs|
  {
    if vs == [] {
      assert EncEach(e, vs) + rest == rest;
    } else {
      var v, more := vs[0], EncEach(e, vs[1..]) + rest;
      assert vs == [v] + vs[1..];
      EncEachCons(e, v, vs[1..]);
      Reassociate(Enc(e, v), EncEach(e, vs[1..]), rest);
      RoundTrip(e, v, more);
      EachRoundTrip(e, vs[1..], rest);
      EachStep(e, |vs| - 1, EncEach(e, vs) + rest, v, more, vs[1..], rest);
    }
  }

  lemma {:induction false} FieldsRoundTrip(fs: seq<Schema>, vs: seq<Value>, rest: Bytes)
    requires AllClosed(fs) && FieldsFit(fs, vs)
    ensures DecFields(fs, EncFields(fs, vs) + rest) == Ok(vs, rest)
    decreases fs, 0, 0
  {
    if fs == [] {
      assert EncFields(fs, vs) + rest == rest;
    } else {
      var v, more := vs[0], EncFields(fs[1..], vs[1..]) + rest;
      assert vs == [v] + vs[1..];
      EncFieldsCons(fs, v, vs[1..]);
      Reassociate(Enc(fs[0], v), EncFields(fs[1..], vs[1..]), rest);
      RoundTrip(fs[0], v, more);
      FieldsRoundTrip(fs[1..], vs[1..], rest);
      FieldsStep(fs, EncFields(fs, vs) + rest, v, more, vs[1..], rest);
    }
  }

  /** With the open parts at the end, a value is decoded from exactly its encoding. */
  lemma {:induction false} EndRoundTrip(s: Schema, v: Value)
    requires EndsWell(s) && Fits(s, v)
    ensures Dec(s, Enc(s, v)) == Ok(v, [])
    decreases s, 1, 0
  {
    match s {
      case Pairs =>
        PairsRoundTrip(v.pairs);
        CollectedHolds(v.pairs);
      case Rest =>
      case Record(fs) => LastRoundTrip(fs, v.vs);
      case _ =>
        RoundTrip(s, v, []);
        assert Enc(s, v) + [] == Enc(s, v);
    }
  }

  lemma {:induction false} LastRoundTrip(fs: seq<Schema>, vs: seq<Value>)
    requires LastEndsWell(fs) && FieldsFit(fs, vs)
    ensures DecFields(fs, EncFields(fs, vs)) == Ok(vs, [])
    decreases fs, 0, 0
  {
    if fs != [] {
      var v, more := vs[0], EncFields(fs[1..], vs[1..]);
      assert vs == [v] + vs[1..];
      EncFieldsCons(fs, v, vs[1..]);
      if |fs| == 1 {
        assert more == [] && Enc(fs[0], v) + [] == Enc(fs[0], v);
        EndRoundTrip(fs[0], v);
      } else {
        RoundTrip(fs[0], v, more);
      }
      LastRoundTrip(fs[1..], vs[1..]);
      FieldsStep(fs, EncFields(fs, vs), v, more, vs[1..], []);
    }
  }

  // --- What is decoded was encoded

  /** How many bytes the parts before the extended attributes take. */
  function PartsLen(f: Flags): nat {
    (if f.size then 8 else 0) + (if f.owner then 8 else 0) + (if f.perm then 4 else 0) + (if f.times then 8 else 0)
  }

  /** Extended attributes as they are written: some, and no key twice. */
  predicate ExtendedCanonical(tail: Bytes) {
    |tail| >= 4 ==>
      var count := UnBe(tail[..4]); var ps := DecPairsN(count, tail[4..]);
      count != 0 && (ps.Ok? ==> KeysApart(ps.value))
  }

  /** Attributes as they are written: they are there, under the flag word of exactly the flags it means, and
      extended ones that are announced are as they are written. */
  predicate AttrsCanonical(input: Bytes) {
    |input| >= 4 &&
    var word := UnBe(input[..4]); var f := BitsToFlags(word); var at := 4 + PartsLen(f);
    word == FlagBits(f) && (f.extended && |input| >= at ==> ExtendedCanonical(input[at..]))
  }

  /** All attributes and maps inside are as they are written. */
  predicate Canonical(s: Schema, input: Bytes)
    decreases s, 1, 0
  {
    match s
    case Attributes => AttrsCanonical(input)
    case Pairs => DecPairs(input).Ok? ==> KeysApart(DecPairs(input).value)
    case Listing(e) => DecNum(4, input).Ok? ==> EachCanonical(e, DecNum(4, input).value, DecNum(4, input).rest)
    case Record(fs) => FieldsCanonical(fs, input)
    case _ => true
  }

  predicate EachCanonical(e: Schema, n: nat, input: Bytes)
    decreases e, 2, n
  {
    n == 0 || (Canonical(e, input) && (Dec(e, input).Ok? ==> EachCanonical(e, n - 1, Dec(e, input).rest)))
  }

  predicate FieldsCanonical(fs: seq<Schema>, input: Bytes)
    decreases fs, 0, 0
  {
    fs == [] ||
    (Canonical(fs[0], input) && (Dec(fs[0], input).Ok? ==> FieldsCanonical(fs[1..], Dec(fs[0], input).rest)))
  }

  lemma {:induction false} DecNumExact(k: nat, input: Bytes)
    requires DecNum(k, input).Ok?
    ensures var r := DecNum(k, input); r.value < Pow256(k) && input == Be(k, r.value) + r.rest
  {
    var b := input[..k];
    UnBeRoundTrip(b);
    assert |b| == k && input == b + input[k..];
  }

  lemma {:induction false} Num32Exact(input: Bytes)
    requires DecNum(4, input).Ok?
    ensures var r := DecNum(4, input); r.value < MAX32 && input == Be(4, r.value) + r.rest
  {
    DecNumExact(4, input);
    PowersOf256();
  }

  lemma {:induction false} Num64Exact(input: Bytes)
    requires DecNum(8, input).Ok?
    ensures var r := DecNum(8, input); r.value < MAX64 && input == Be(8, r.value) + r.rest
  {
    DecNumExact(8, input);
    PowersOf256();
  }

  /** A length taken off the front and the bytes it counts. */
  lemma {:induction false} SplitLengthed(input: Bytes, head: Bytes, n: nat, rest: Bytes)
    requires input == head + rest && n <= |rest|
    ensures input == head + rest[..n] + rest[n..]
  {
    assert rest == rest[..n] + rest[n..];
  }

  lemma {:induction false} DecLengthedExact(input: Bytes)
    requires DecLengthed(input).Ok?
    ensures var r := DecLengthed(input); |r.value| < MAX32 && input == Lengthed(r.value) + r.rest
  {
    Num32Exact(input);
    var n, rest := DecNum(4, input).value, DecNum(4, input).rest;
    SplitLengthed(input, Be(4, n), n, rest);
  }

  lemma {:induction false} PairExact(input: Bytes)
    requires DecPair(input).Ok?
    ensures var r := DecPair(input); PairFits(r.value) && input == Lengthed(r.value.key) + Lengthed(r.value.value) + r.rest
  {
    DecLengthedExact(input);
    var k := DecLengthed(input);
    DecLengthedExact(k.rest);
    var v := DecLengthed(k.rest);
    Reassociate(Lengthed(k.value), Lengthed(v.value), v.rest);
  }

  lemma {:induction false} OneMorePair(input: Bytes, p: Pair, rest: Bytes, ps: seq<Pair>, end: Bytes)
    requires DecPair(input) == Ok(p, rest) && PairsFit(ps) && rest == EncPairs(ps) + end
    ensures PairsFit([p] + ps) && input == EncPairs([p] + ps) + end
  {
    PairExact(input);
    assert ([p] + ps)[1..] == ps;
    Reassociate(Lengthed(p.key) + Lengthed(p.value), EncPairs(ps), end);
  }

  lemma {:induction false} PairsNStart(input: Bytes)
    ensures DecPairsN(0, input) == Ok([], input) && input == EncPairs([]) + input
  {
    assert input == [] + input;
  }

  lemma {:induction false} OneMoreRead(m: nat, input: Bytes)
    requires DecPair(input).Ok? && DecPairsN(m, DecPair(input).rest).Ok?
    requires var rest := DecPair(input).rest; var t := DecPairsN(m, rest);
      |t.value| == m && PairsFit(t.value) && rest == EncPairs(t.value) + t.rest
    ensures var r := DecPairsN(m + 1, input); r.Ok? && |r.value| == m + 1 && PairsFit(r.value) && input == EncPairs(r.value) + r.rest
  {
    var rest := DecPair(input).rest; var t := DecPairsN(m, rest);
    PairsNStep(m, input, DecPair(input).value, rest, t.value, t.rest);
    OneMorePair(input, DecPair(input).value, rest, t.value, t.rest);
  }

  lemma {:induction false} PairsNExact(n: nat, input: Bytes)
    requires DecPairsN(n, input).Ok?
    ensures var r := DecPairsN(n, input); |r.value| == n && PairsFit(r.value) && input == EncPairs(r.value) + r.rest
    decreases n
  {
    if n == 0 {
      PairsNStart(input);
    } else {
      var m, rest := n - 1, DecPair(input).rest;
      PairsNExact(m, rest);
      OneMoreRead(m, input);
    }
  }

  lemma {:induction false} DecPairsExact(input: Bytes)
    requires DecPairs(input).Ok?
    ensures var r := DecPairs(input); PairsFit(r.value) && r.rest == [] && input == EncPairs(r.value)
    decreases |input|
  {
    if input != [] {
      var p := DecPair(input);
      PairExact(input);
      DecPairConsumes(input);
      DecPairsExact(p.rest);
      var ps := DecPairs(p.rest).value;
      assert ([p.value] + ps)[1..] == ps;
    }
  }

  // --- Attributes that were decoded

  lemma {:induction false} OptionalExact(flag: bool, k: nat, input: Bytes)
    requires DecOptional(flag, k, input).Ok?
    ensures var r := DecOptional(flag, k, input);
      && (r.value.Some? <==> flag) && (flag ==> r.value.value < Pow256(k))
      && input == IfFlag(flag, Be(k, OrZero(r.value))) + r.rest
  {
    if flag {
      DecNumExact(k, input);
    } else {
      assert input == [] + input;
    }
  }

  lemma {:induction false} Optional32Exact(flag: bool, input: Bytes)
    requires DecOptional(flag, 4, input).Ok?
    ensures var r := DecOptional(flag, 4, input);
      (r.value.Some? <==> flag) && Fits32(r.value) && input == IfFlag(flag, Be(4, OrZero(r.value))) + r.rest
  {
    OptionalExact(flag, 4, input);
    PowersOf256();
  }

  lemma {:induction false} TwoExact(flag: bool, input: Bytes)
    requires DecTwo(flag, input).Ok?
    ensures var r := DecTwo(flag, input); var (x, y) := r.value;
      && (x.Some? <==> flag) && (y.Some? <==> flag) && Fits32(x) && Fits32(y)
      && input == IfFlag(flag, Be(4, OrZero(x)) + Be(4, OrZero(y))) + r.rest
  {
    Optional32Exact(flag, input);
    var x := DecOptional(flag, 4, input);
    Optional32Exact(flag, x.rest);
    var y := DecOptional(flag, 4, x.rest);
    if flag {
      Reassociate(Be(4, OrZero(x.value)), Be(4, OrZero(y.value)), y.rest);
    } else {
      assert [] + y.rest == y.rest && [] + x.rest == x.rest;
    }
  }

  function Announced(flag: bool, ps: seq<Pair>): Bytes { IfFlag(flag, Be(4, |ps|) + EncPairs(ps)) }

  lemma {:induction false} ExtendedExact(flag: bool, input: Bytes)
    requires DecExtended(flag, input).Ok?
    ensures var r := DecExtended(flag, input);
      && |r.value| < MAX32 && PairsFit(r.value) && (!flag ==> r.value == [])
      && input == Announced(flag, r.value) + r.rest
  {
    if flag {
      Num32Exact(input);
      var n := DecNum(4, input);
      var r := DecPairsN(n.value, n.rest);
      PairsNExact(n.value, n.rest);
      Reassociate(Be(4, n.value), EncPairs(r.value), r.rest);
    } else {
      assert input == [] + input;
    }
  }

  lemma {:induction false} CollectedFit(raw: seq<Pair>)
    requires |raw| < MAX32 && PairsFit(raw)
    ensures |Collected(raw)| < MAX32 && PairsFit(Collected(raw)) && KeysApart(Collected(raw))
  {
    CollectedHolds(raw);
    forall i | 0 <= i < |Collected(raw)| ensures PairFits(Collected(raw)[i]) { assert Collected(raw)[i] in raw; }
  }

  /** The parts from the permissions on, up to the extended attributes, which were read as raw pairs. */
  lemma {:induction false} LaterPartsExact(f: Flags, b: Attrs, input: Bytes) returns (raw: seq<Pair>, tail: Bytes)
    requires DecLaterParts(f, b, input).Ok?
    ensures var r := DecLaterParts(f, b, input); var a := r.value;
      && a == b.(perm := a.perm, atime := a.atime, mtime := a.mtime, extended := Collected(raw))
      && (a.perm.Some? <==> f.perm) && (a.atime.Some? <==> f.times) && (a.mtime.Some? <==> f.times)
      && Fits32(a.perm) && Fits32(a.atime) && Fits32(a.mtime)
      && DecExtended(f.extended, tail) == Ok(raw, r.rest)
      && input == PermPart(a) + (TimesPart(a) + tail)
  {
    Optional32Exact(f.perm, input);
    var perm := DecOptional(f.perm, 4, input);
    TwoExact(f.times, perm.rest);
    var times := DecTwo(f.times, perm.rest);
    tail := times.rest;
    raw := DecExtended(f.extended, tail).value;
  }

  lemma {:induction false} PartsExact(f: Flags, input: Bytes) returns (raw: seq<Pair>, tail: Bytes)
    requires DecParts(f, input).Ok?
    ensures var r := DecParts(f, input); var a := r.value;
      && AttrsInRange(a) && Paired(a) && a.extended == Collected(raw)
      && a.size.Some? == f.size && HasOwner(a) == f.owner && a.perm.Some? == f.perm && HasTimes(a) == f.times
      && DecExtended(f.extended, tail) == Ok(raw, r.rest)
      && input == SizePart(a) + (OwnerPart(a) + (PermPart(a) + (TimesPart(a) + tail)))
  {
    OptionalExact(f.size, 8, input);
    PowersOf256();
    var size := DecOptional(f.size, 8, input);
    TwoExact(f.owner, size.rest);
    var owner := DecTwo(f.owner, size.rest);
    raw, tail := LaterPartsExact(f, NO_ATTRS.(size := size.value, uid := owner.value.0, gid := owner.value.1), owner.rest);
    ExtendedExact(f.extended, tail);
    CollectedFit(raw);
  }

  lemma {:induction false} PartsTake(a: Attrs, f: Flags, tail: Bytes)
    requires a.size.Some? == f.size && HasOwner(a) == f.owner && a.perm.Some? == f.perm && HasTimes(a) == f.times
    ensures var input := SizePart(a) + (OwnerPart(a) + (PermPart(a) + (TimesPart(a) + tail)));
      |input| == PartsLen(f) + |tail| && input[PartsLen(f)..] == tail
  {
    TakeFour(SizePart(a), OwnerPart(a), PermPart(a), TimesPart(a), tail);
  }

  lemma {:induction false} TakeFour(a: Bytes, b: Bytes, c: Bytes, d: Bytes, tail: Bytes)
    ensures |a + (b + (c + (d + tail)))| == |a| + |b| + |c| + |d| + |tail|
    ensures (a + (b + (c + (d + tail))))[|a| + |b| + |c| + |d|..] == tail
  {
    assert a + (b + (c + (d + tail))) == (a + b + c + d) + tail;
  }

  /** The extended attributes stand where the flags say. */
  lemma {:induction false} TailIsAt(word: Bytes, parts: Bytes, k: nat, tail: Bytes)
    requires |word| == 4 && k <= |parts| && parts[k..] == tail
    ensures |word + parts| >= 4 + k && (word + parts)[4 + k..] == tail
  {}

  lemma {:induction false} ExtendedWasWritten(f: Flags, raw: seq<Pair>, tail: Bytes, rest: Bytes)
    requires DecExtended(f.extended, tail) == Ok(raw, rest) && (f.extended ==> ExtendedCanonical(tail))
    ensures f.extended == (raw != []) && Collected(raw) == raw && tail == Announced(f.extended, raw) + rest
  {
    ExtendedExact(f.extended, tail);
    CollectedHolds(raw);
    if f.extended {
      var n := DecNum(4, tail);
      PairsNExact(n.value, n.rest);
    }
  }

  lemma {:induction false} CanonicalWasWritten(input: Bytes)
    requires DecAttrs(input).Ok? && AttrsCanonical(input)
    ensures var r := DecAttrs(input); input == EncAttrs(r.value) + r.rest
  {
    Num32Exact(input);
    var bits := DecNum(4, input);
    var f := BitsToFlags(bits.value);
    var raw, tail := PartsExact(f, bits.rest);
    var r := DecParts(f, bits.rest);
    var a := r.value;
    PartsTake(a, f, tail);
    TailIsAt(Be(4, bits.value), bits.rest, PartsLen(f), tail);
    ExtendedWasWritten(f, raw, tail, r.rest);
    PartsMakeWhole(a, r.rest);
  }

  lemma {:induction false} PartsMakeWhole(a: Attrs, rest: Bytes)
    requires |a.extended| < MAX32
    ensures var tail := Announced(a.extended != [], a.extended) + rest;
      Be(4, FlagBits(FlagsOf(a))) + (SizePart(a) + (OwnerPart(a) + (PermPart(a) + (TimesPart(a) + tail)))) == EncAttrs(a) + rest
  {
    var b := Be(4, FlagBits(FlagsOf(a)));
    assert Taken(a.extended) == a.extended;
    assert EncAttrs(a) == b + SizePart(a) + OwnerPart(a) + PermPart(a) + TimesPart(a) + ExtendedPart(a);
    JoinParts(b, SizePart(a), OwnerPart(a), PermPart(a), TimesPart(a), ExtendedPart(a), rest);
  }

  lemma {:induction false} WrittenTailIsCanonical(ps: seq<Pair>, rest: Bytes)
    requires ps != [] && |ps| < MAX32 && PairsFit(ps) && KeysApart(ps)
    ensures ExtendedCanonical(Be(4, |ps|) + EncPairs(ps) + rest)
  {
    Reassociate(Be(4, |ps|), EncPairs(ps), rest);
    Num32RoundTrip(|ps|, EncPairs(ps) + rest);
    PairsNRoundTrip(ps, rest);
  }

  lemma {:induction false} WrittenIsCanonical(a: Attrs, rest: Bytes)
    requires AttrsInRange(a) && Paired(a)
    ensures AttrsCanonical(EncAttrs(a) + rest)
  {
    var f, tail := FlagsOf(a), ExtendedPart(a) + rest;
    var bits, parts := FlagBits(f), SizePart(a) + (OwnerPart(a) + (PermPart(a) + (TimesPart(a) + tail)));
    FlagsRoundTrip(f);
    assert EncAttrs(a) == Be(4, bits) + SizePart(a) + OwnerPart(a) + PermPart(a) + TimesPart(a) + ExtendedPart(a);
    JoinParts(Be(4, bits), SizePart(a), OwnerPart(a), PermPart(a), TimesPart(a), ExtendedPart(a), rest);
    Num32RoundTrip(bits, parts);
    PartsTake(a, f, tail);
    TailIsAt(Be(4, bits), parts, PartsLen(f), tail);
    if f.extended {
      assert Taken(a.extended) == a.extended;
      WrittenTailIsCanonical(a.extended, rest);
    }
  }

  lemma {:induction false} DecodedAttrsFit(input: Bytes)
    requires DecAttrs(input).Ok?
    ensures AttrsInRange(DecAttrs(input).value) && Paired(DecAttrs(input).value)
  {
    if input != [] { var raw, tail := PartsExact(BitsToFlags(DecNum(4, input).value), DecNum(4, input).rest); }
  }

  /** Attributes written like a, the map walked in some order. */
  ghost predicate Writes(a: Attrs, b: Attrs) {
    AttrsInRange(b) && Paired(b) && a == b.(extended := a.extended) && SameMap(a.extended, b.extended)
  }

  /** Decoded attributes were written that way, in some order of their map, exactly when the input is canonical;
      and then in the order in which they were read. */
  lemma {:induction false} AttrsWereWrittenIff(input: Bytes)
    requires DecAttrs(input).Ok?
    ensures var r := DecAttrs(input);
      && AttrsInRange(r.value) && Paired(r.value)
      && (input == EncAttrs(r.value) + r.rest <==> AttrsCanonical(input))
      && ((exists b :: Writes(r.value, b) && input == EncAttrs(b) + r.rest) <==> AttrsCanonical(input))
  {
    var r := DecAttrs(input);
    DecodedAttrsFit(input);
    if AttrsCanonical(input) {
      CanonicalWasWritten(input);
      assert Writes(r.value, r.value);
    }
    if b :| Writes(r.value, b) && input == EncAttrs(b) + r.rest { WrittenIsCanonical(b, r.rest); }
    WrittenIsCanonical(r.value, r.rest);
  }

  lemma EmptyIsDecoded()
    ensures DecAttrs([]) == Ok(NO_ATTRS, []) && [] != EncAttrs(NO_ATTRS) && !AttrsCanonical([])
  {
    assert |EncAttrs(NO_ATTRS)| >= 4;
  }

  /** A flag word with nothing behind it that is not the one written for no attributes. */
  lemma {:induction false} BareWordIsDecoded(word: nat, more: Bytes)
    requires 0 < word < MAX32 && DecParts(BitsToFlags(word), more) == Ok(NO_ATTRS, [])
    ensures DecAttrs(Be(4, word) + more) == Ok(NO_ATTRS, [])
    ensures Be(4, word) + more != EncAttrs(NO_ATTRS) && !AttrsCanonical(Be(4, word) + more)
  {
    var input := Be(4, word) + more;
    Num32RoundTrip(word, more);
    AttrsWereWrittenIff(input);
    assert EncAttrs(NO_ATTRS) + [] == EncAttrs(NO_ATTRS) == Be(4, 0) + [];
    Num32RoundTrip(0, []);
  }

  /** An unknown flag is dropped. */
  lemma UnknownFlagIsDropped()
    ensures DecAttrs(Be(4, 16)) == Ok(NO_ATTRS, []) && Be(4, 16) != EncAttrs(NO_ATTRS) && !AttrsCanonical(Be(4, 16))
  {
    BareWordIsDecoded(16, []);
    assert Be(4, 16) + [] == Be(4, 16);
  }

  /** An announcement of no extended attributes is dropped. */
  lemma EmptyAnnouncementIsDropped()
    ensures var input := Be(4, 0x8000_0000) + Be(4, 0);
      DecAttrs(input) == Ok(NO_ATTRS, []) && input != EncAttrs(NO_ATTRS) && !AttrsCanonical(input)
  {
    Num32RoundTrip(0, []);
    assert Be(4, 0) + [] == Be(4, 0);
    BareWordIsDecoded(0x8000_0000, Be(4, 0));
  }

  lemma {:induction false} OnlyExtended(f: Flags, input: Bytes, raw: seq<Pair>, end: Bytes)
    requires f == Flags(false, false, false, false, true) && DecExtended(true, input) == Ok(raw, end)
    ensures DecParts(f, input) == Ok(NO_ATTRS.(extended := Collected(raw)), end)
  {}

  lemma {:induction false} BareExtendedDecode(ps: seq<Pair>)
    requires |ps| < MAX32 && PairsFit(ps)
    ensures DecAttrs(Be(4, 0x8000_0000) + (Be(4, |ps|) + EncPairs(ps))) == Ok(NO_ATTRS.(extended := Collected(ps)), [])
  {
    var tail, f := Be(4, |ps|) + EncPairs(ps), Flags(false, false, false, false, true);
    CountRoundTrip(|ps|, EncPairs(ps), []);
    PairsNRoundTrip(ps, []);
    assert tail + [] == tail;
    OnlyExtended(f, tail, ps, []);
    FlagsRoundTrip(f);
    Num32RoundTrip(0x8000_0000, tail);
  }

  lemma {:induction false} BareRepeatsAreNotCanonical(ps: seq<Pair>)
    requires |ps| < MAX32 && PairsFit(ps) && !KeysApart(ps)
    ensures !AttrsCanonical(Be(4, 0x8000_0000) + (Be(4, |ps|) + EncPairs(ps)))
  {
    var tail := Be(4, |ps|) + EncPairs(ps);
    Num32RoundTrip(0x8000_0000, tail);
    TailIsAt(Be(4, 0x8000_0000), tail, 0, tail);
    Num32RoundTrip(|ps|, EncPairs(ps));
    PairsNRoundTrip(ps, []);
    assert EncPairs(ps) + [] == EncPairs(ps);
  }

  /** Of pairs under one key only the last is kept: whatever the pairs, if a key comes twice they decode to fewer,
      and no attributes are written that way. */
  lemma {:induction false} RepeatedKeysAreDropped(ps: seq<Pair>)
    requires |ps| < MAX32 && PairsFit(ps) && !KeysApart(ps)
    ensures var input, a := Be(4, 0x8000_0000) + (Be(4, |ps|) + EncPairs(ps)), NO_ATTRS.(extended := Collected(ps));
      && DecAttrs(input) == Ok(a, []) && |a.extended| < |ps| && SameMap(a.extended, ps) && !AttrsCanonical(input)
      && forall b :: AttrsInRange(b) && Paired(b) ==> input != EncAttrs(b)
  {
    CollectedHolds(ps);
    BareExtendedDecode(ps);
    BareRepeatsAreNotCanonical(ps);
    forall b | AttrsInRange(b) && Paired(b) ensures AttrsCanonical(EncAttrs(b)) {
      WrittenIsCanonical(b, []);
      assert EncAttrs(b) + [] == EncAttrs(b);
    }
  }

  /** The smallest such input. */
  lemma {:induction false} SecondValueWins(key: Bytes, first: Bytes, second: Bytes)
    requires PairFits(Pair(key, first)) && PairFits(Pair(key, second))
    ensures var ps := [Pair(key, first), Pair(key, second)];
      DecAttrs(Be(4, 0x8000_0000) + (Be(4, 2) + EncPairs(ps))) == Ok(NO_ATTRS.(extended := [Pair(key, second)]), [])
  {
    var ps := [Pair(key, first), Pair(key, second)];
    assert ps[0].key == ps[1].key;
    RepeatedKeysAreDropped(ps);
    assert ps[..1] == [Pair(key, first)] && ps[..1][..0] == [];
    assert Collected(ps[..1]) == [Pair(key, first)];
    assert [Pair(key, second)] + [Pair(key, first)][1..] == [Pair(key, second)];
  }

  // --- Values that were decoded

  /** Nothing inside runs to the end of the input but what stands at the end. */
  predicate Tidy(s: Schema) { Closed(s) || EndsWell(s) }

  lemma {:induction false} PairsWereWrittenIff(input: Bytes)
    requires DecPairs(input).Ok?
    ensures var ps := Collected(DecPairs(input).value);
      && PairsFit(ps) && KeysApart(ps) && DecPairs(input).rest == []
      && (input == EncPairs(ps) + [] <==> KeysApart(DecPairs(input).value))
  {
    DecPairsExact(input);
    var raw := DecPairs(input).value;
    CollectedHolds(raw);
    forall i | 0 <= i < |Collected(raw)| ensures PairFits(Collected(raw)[i]) { assert Collected(raw)[i] in raw; }
    assert input == input + [] && EncPairs(Collected(raw)) + [] == EncPairs(Collected(raw));
    if input == EncPairs(Collected(raw)) { PairsRoundTrip(Collected(raw)); }
  }

  /** Whatever is decoded fits its schema. If the attributes and maps in it are canonical, the input was its
      encoding and what is left; and when open parts stand at the end, only if they are. */
  lemma {:induction false} DecodedWasEncoded(s: Schema, input: Bytes)
    requires Dec(s, input).Ok?
    ensures var r := Dec(s, input);
      && Fits(s, r.value) && (Canonical(s, input) ==> input == Enc(s, r.value) + r.rest)
      && (Tidy(s) && input == Enc(s, r.value) + r.rest ==> Canonical(s, input))
    decreases s, 1, 0
  {
    match s {
      case U8 => DecNumExact(1, input);
      case U32 => Num32Exact(input);
      case U64 => Num64Exact(input);
      case Choice(_) => Num32Exact(input);
      case Text => DecLengthedExact(input);
      case Blob => DecLengthedExact(input);
      case Rest => assert input == input + [];
      case Nothing => assert input == [] + input;
      case Pairs => PairsWereWrittenIff(input);
      case Attributes => AttrsWereWrittenIff(input);
      case Listing(e) =>
        EachDecodedWasEncoded(e, DecNum(4, input).value, DecNum(4, input).rest);
        ListingWasEncoded(e, input);
      case Record(fs) => FieldsDecodedWereEncoded(fs, input);
    }
  }

  predicate EachFits(e: Schema, vs: seq<Value>) { forall i :: 0 <= i < |vs| ==> Fits(e, vs[i]) }

  /** The count of a listing, put before its elements. */
  lemma {:induction false} ListingWasEncoded(e: Schema, input: Bytes)
    requires Dec(Listing(e), input).Ok?
    requires var c := DecNum(4, input); var r := DecEach(e, c.value, c.rest);
      |r.value| == c.value && EachFits(e, r.value)
    ensures var r := Dec(Listing(e), input); var c := DecNum(4, input); var d := DecEach(e, c.value, c.rest);
      && Fits(Listing(e), r.value) && r.rest == d.rest
      && (input == Enc(Listing(e), r.value) + r.rest <==> c.rest == EncEach(e, d.value) + d.rest)
  {
    Num32Exact(input);
    var c := DecNum(4, input);
    var r := DecEach(e, c.value, c.rest);
    Reassociate(Be(4, c.value), EncEach(e, r.value), r.rest);
    SameTail(Be(4, c.value), c.rest, EncEach(e, r.value) + r.rest);
  }

  lemma {:induction false} SameTail(a: Bytes, b: Bytes, c: Bytes)
    ensures a + b == a + c <==> b == c
  {
    assert (a + b)[|a|..] == b && (a + c)[|a|..] == c;
  }

  lemma {:induction false} EachUnfold(e: Schema, n: nat, input: Bytes)
    requires n > 0 && DecEach(e, n, input).Ok?
    ensures Dec(e, input).Ok? && DecEach(e, n - 1, Dec(e, input).rest).Ok?
    ensures var h := Dec(e, input); var t := DecEach(e, n - 1, h.rest);
      && DecEach(e, n, input) == Ok([h.value] + t.value, t.rest)
      && (EachCanonical(e, n, input) <==> Canonical(e, input) && EachCanonical(e, n - 1, h.rest))
  {}

  /** A value and what follows it: both were written so exactly when the whole was. */
  lemma {:induction false} BothWereWritten(s: Schema, input: Bytes, v: Value, rest: Bytes, more: Bytes)
    requires Closed(s) && Fits(s, v) && Dec(s, input) == Ok(v, rest) && input == Enc(s, v) + more
    ensures rest == more
  {
    RoundTrip(s, v, more);
  }

  lemma {:induction false} OneMoreWasEncoded(e: Schema, input: Bytes, v: Value, rest: Bytes, vs: seq<Value>,
      end: Bytes)
    requires Dec(e, input) == Ok(v, rest) && Fits(e, v) && EachFits(e, vs)
    ensures EachFits(e, [v] + vs)
    ensures input == Enc(e, v) + rest && rest == EncEach(e, vs) + end ==> input == EncEach(e, [v] + vs) + end
    ensures Closed(e) && input == EncEach(e, [v] + vs) + end ==> rest == EncEach(e, vs) + end && input == Enc(e, v) + rest
  {
    EncEachCons(e, v, vs);
    Reassociate(Enc(e, v), EncEach(e, vs), end);
    if Closed(e) && input == EncEach(e, [v] + vs) + end { BothWereWritten(e, input, v, rest, EncEach(e, vs) + end); }
  }

  lemma {:induction false} EachDecodedWasEncoded(e: Schema, n: nat, input: Bytes)
    requires DecEach(e, n, input).Ok?
    ensures var r := DecEach(e, n, input);
      && |r.value| == n && EachFits(e, r.value)
      && (EachCanonical(e, n, input) ==> input == EncEach(e, r.value) + r.rest)
      && (Closed(e) && input == EncEach(e, r.value) + r.rest ==> EachCanonical(e, n, input))
    decreases e, 2, n
  {
    if n == 0 {
      assert input == [] + input;
    } else {
      EachUnfold(e, n, input);
      DecodedWasEncoded(e, input);
      var h := Dec(e, input);
      EachDecodedWasEncoded(e, n - 1, h.rest);
      var t := DecEach(e, n - 1, h.rest);
      OneMoreWasEncoded(e, input, h.value, h.rest, t.value, t.rest);
    }
  }

  /** What is open stands at the end of the fields. */
  predicate AllTidy(fs: seq<Schema>) { AllClosed(fs) || LastEndsWell(fs) }

  lemma {:induction false} FieldsUnfold(fs: seq<Schema>, input: Bytes)
    requires fs != [] && DecFields(fs, input).Ok?
    ensures Dec(fs[0], input).Ok? && DecFields(fs[1..], Dec(fs[0], input).rest).Ok?
    ensures var h := Dec(fs[0], input); var t := DecFields(fs[1..], h.rest);
      && DecFields(fs, input) == Ok([h.value] + t.value, t.rest)
      && (FieldsCanonical(fs, input) <==> Canonical(fs[0], input) && FieldsCanonical(fs[1..], h.rest))
    ensures AllTidy(fs) ==> Tidy(fs[0]) && AllTidy(fs[1..]) && (|fs| > 1 ==> Closed(fs[0]))
  {}

  lemma {:induction false} OneMoreFieldWasEncoded(fs: seq<Schema>, input: Bytes, v: Value, rest: Bytes,
      vs: seq<Value>, end: Bytes)
    requires fs != [] && Dec(fs[0], input) == Ok(v, rest) && Fits(fs[0], v) && FieldsFit(fs[1..], vs)
    requires |fs| == 1 ==> rest == end
    ensures FieldsFit(fs, [v] + vs)
    ensures input == Enc(fs[0], v) + rest && rest == EncFields(fs[1..], vs) + end ==> input == EncFields(fs, [v] + vs) + end
    ensures (|fs| > 1 ==> Closed(fs[0])) && input == EncFields(fs, [v] + vs) + end ==>
      rest == EncFields(fs[1..], vs) + end && input == Enc(fs[0], v) + rest
  {
    assert ([v] + vs)[1..] == vs;
    EncFieldsCons(fs, v, vs);
    var more := EncFields(fs[1..], vs) + end;
    Reassociate(Enc(fs[0], v), EncFields(fs[1..], vs), end);
    if |fs| == 1 {
      assert more == [] + end == end;
    } else if Closed(fs[0]) && input == EncFields(fs, [v] + vs) + end {
      BothWereWritten(fs[0], input, v, rest, more);
    }
  }

  lemma {:induction false} FieldsDecodedWereEncoded(fs: seq<Schema>, input: Bytes)
    requires DecFields(fs, input).Ok?
    ensures var r := DecFields(fs, input);
      && FieldsFit(fs, r.value) && (FieldsCanonical(fs, input) ==> input == EncFields(fs, r.value) + r.rest)
      && (AllTidy(fs) && input == EncFields(fs, r.value) + r.rest ==> FieldsCanonical(fs, input))
    decreases fs, 0, 0
  {
    if fs == [] {
      assert input == [] + input;
    } else {
      FieldsUnfold(fs, input);
      DecodedWasEncoded(fs[0], input);
      var h := Dec(fs[0], input);
      FieldsDecodedWereEncoded(fs[1..], h.rest);
      var t := DecFields(fs[1..], h.rest);
      OneMoreFieldWasEncoded(fs, input, h.value, h.rest, t.value, t.rest);
    }
  }

  /** A whole input decodes to a value and is canonical exactly when it is the encoding of that value, for
      schemas with attributes as well. */
  lemma {:induction false} OnceIffEncoding(s: Schema, input: Bytes, v: Value)
    requires EndsWell(s)
    ensures Once(s, input) == Some(v) && Canonical(s, input) <==> Fits(s, v) && input == Enc(s, v)
  {
    assert Enc(s, v) + [] == Enc(s, v);
    if Once(s, input) == Some(v) { DecodedWasEncoded(s, input); }
    if Fits(s, v) && input == Enc(s, v) {
      EndRoundTrip(s, v);
      DecodedWasEncoded(s, input);
    }
  }

  /** The same value with its maps listed in some order. */
  ghost predicate Same(v: Value, w: Value) {
    match (v, w)
    case (Vals(vs), Vals(ws)) => |vs| == |ws| && forall i :: 0 <= i < |vs| ==> Same(vs[i], ws[i])
    case (Map(ps), Map(qs)) => SameMap(ps, qs)
    case (Attr(a), Attr(b)) => a == b.(extended := a.extended) && SameMap(a.extended, b.extended)
    case _ => v == w
  }

  lemma {:induction false} SameItself(v: Value)
    ensures Same(v, v)
  {
    if v.Vals? {
      forall i | 0 <= i < |v.vs| ensures Same(v.vs[i], v.vs[i]) { SameItself(v.vs[i]); }
    }
  }

  /** In whatever order the maps of a value are written, it is read back with the same maps. What is read from a
      whole input was written, in some order of its maps, exactly when the input is canonical. */
  lemma {:induction false} ReadWasWrittenIff(s: Schema, input: Bytes, v: Value)
    requires EndsWell(s)
    ensures forall w :: Fits(s, w) && Same(v, w) ==> Once(s, Enc(s, w)) == Some(w)
    ensures Once(s, input) == Some(v) ==>
      (Canonical(s, input) <==> exists w :: Fits(s, w) && Same(v, w) && input == Enc(s, w))
  {
    forall w | Fits(s, w) && Same(v, w) ensures Once(s, Enc(s, w)) == Some(w) { EndRoundTrip(s, w); }
    if Once(s, input) == Some(v) {
      OnceIffEncoding(s, input, v);
      if Canonical(s, input) { SameItself(v); }
      if w :| Fits(s, w) && Same(v, w) && input == Enc(s, w) { OnceIffEncoding(s, input, w); }
    }
  }

  /** Without attributes and maps inside every input is canonical. */
  predicate Plain(s: Schema)
    decreases s, 1, 0
  {
    match s
    case Attributes => false
    case Pairs => false
    case Listing(e) => Plain(e)
    case Record(fs) => AllPlain(fs)
    case _ => true
  }

  predicate AllPlain(fs: seq<Schema>)
    decreases fs, 0, 0
  {
    fs == [] || (Plain(fs[0]) && AllPlain(fs[1..]))
  }

  lemma {:induction false} PlainIsCanonical(s: Schema, input: Bytes)
    requires Plain(s)
    ensures Canonical(s, input)
    decreases s, 1, 0
  {
    match s {
      case Listing(e) =>
        if DecNum(4, input).Ok? { EachPlainIsCanonical(e, DecNum(4, input).value, DecNum(4, input).rest); }
      case Record(fs) => FieldsPlainAreCanonical(fs, input);
      case _ =>
    }
  }

  lemma {:induction false} EachPlainIsCanonical(e: Schema, n: nat, input: Bytes)
    requires Plain(e)
    ensures EachCanonical(e, n, input)
    decreases e, 2, n
  {
    if n > 0 {
      PlainIsCanonical(e, input);
      if Dec(e, input).Ok? { EachPlainIsCanonical(e, n - 1, Dec(e, input).rest); }
    }
  }

  lemma {:induction false} FieldsPlainAreCanonical(fs: seq<Schema>, input: Bytes)
    requires AllPlain(fs)
    ensures FieldsCanonical(fs, input)
    decreases fs, 0, 0
  {
    if fs != [] {
      PlainIsCanonical(fs[0], input);
      if Dec(fs[0], input).Ok? { FieldsPlainAreCanonical(fs[1..], Dec(fs[0], input).rest); }
    }
  }
}
