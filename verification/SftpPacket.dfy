/** Packets of yazi-sftp: writing and reading them field by field, framing them on the channel, and
    splitting the channel back into packets. */
module SftpPacket {
  import opened Ordering
  import opened SftpMaps
  import opened SftpCodec
  import opened Wrappers

  // --- Packet types

  datatype Kind =
    | Init | Open | Close | Read | Write | Lstat | Fstat | SetStat | FSetStat | OpenDir | ReadDir
    | Remove | Mkdir | Rmdir | Realpath | Stat | Rename | Readlink | Symlink
    | ExtendedRename | ExtendedFsync | ExtendedHardlink | ExtendedLimits
    | Version | Status | Handle | Data | Name | AttrsReply | ExtendedReply

  function KindByte(k: Kind): byte {
    match k
    case Init => 1
    case Version => 2
    case Open => 3
    case Close => 4
    case Read => 5
    case Write => 6
    case Lstat => 7
    case Fstat => 8
    case SetStat => 9
    case FSetStat => 10
    case OpenDir => 11
    case ReadDir => 12
    case Remove => 13
    case Mkdir => 14
    case Rmdir => 15
    case Realpath => 16
    case Stat => 17
    case Rename => 18
    case Readlink => 19
    case Symlink => 20
    case Status => 101
    case Handle => 102
    case Data => 103
    case Name => 104
    case AttrsReply => 105
    case ExtendedReply => 201
    case _ => 200
  }

  function ResponseKind(b: byte): Option<Kind> {
    if b == 2 then Some(Version)
    else if b == 101 then Some(Status)
    else if b == 102 then Some(Handle)
    else if b == 103 then Some(Data)
    else if b == 104 then Some(Name)
    else if b == 105 then Some(AttrsReply)
    else if b == 201 then Some(ExtendedReply)
    else None
  }

  predicate IsResponse(k: Kind) {
    k.Version? || k.Status? || k.Handle? || k.Data? || k.Name? || k.AttrsReply? || k.ExtendedReply?
  }

  const STATUS_CODES: nat := 14

  function RequestSchema(k: Kind): Schema {
    match k
    case Init => Record([U32, Pairs])
    case Open => Record([U32, Blob, U32, Attributes])
    case Close => Record([U32, Text])
    case Read => Record([U32, Text, U64, U32])
    case Write => Record([U32, Text, U64, Listing(U8)])
    case Fstat => Record([U32, Text])
    case SetStat => Record([U32, Blob, Attributes])
    case FSetStat => Record([U32, Text, Attributes])
    case ReadDir => Record([U32, Text])
    case Mkdir => Record([U32, Blob, Attributes])
    case Rename => Record([U32, Blob, Blob])
    case Symlink => Record([U32, Blob, Blob])
    case ExtendedRename => Record([U32, Text, Record([Blob, Blob])])
    case ExtendedFsync => Record([U32, Text, Record([Text])])
    case ExtendedHardlink => Record([U32, Text, Record([Blob, Blob])])
    case ExtendedLimits => Record([U32, Text, Nothing])
    case _ => Record([U32, Blob])  // Lstat, OpenDir, Remove, Rmdir, Realpath, Stat and Readlink name a path
  }

  function ResponseSchema(k: Kind): Schema {
    match k
    case Version => Record([U32, Pairs])
    case Status => Record([U32, Choice(STATUS_CODES), Text, Text])
    case Handle => Record([U32, Text])
    case Data => Record([U32, Listing(U8)])
    case Name => Record([U32, Listing(Record([Listing(U8), Listing(U8), Attributes]))])
    case AttrsReply => Record([U32, Attributes])
    case _ => Record([U32, Rest])
  }

  function SchemaOf(k: Kind): Schema { if IsResponse(k) then ResponseSchema(k) else RequestSchema(k) }

  // --- Lengths, as packets compute them before they are written

  function PairsLen(ps: seq<Pair>): nat {
    if ps == [] then 0 else 4 + |ps[0].key| + 4 + |ps[0].value| + PairsLen(ps[1..])
  }

  function AttrsLen(a: Attrs): nat {
    4 + (if a.size.Some? then 8 else 0) + (if HasOwner(a) then 8 else 0) + (if a.perm.Some? then 4 else 0)
      + (if HasTimes(a) then 8 else 0) + (if a.extended != [] then 4 + PairsLen(a.extended) else 0)
  }

  function Len(s: Schema, v: Value): nat
    decreases s, 1, 0
  {
    match (s, v)
    case (U8, Num(_)) => 1
    case (U32, Num(_)) => 4
    case (U64, Num(_)) => 8
    case (Choice(_), Num(_)) => 4
    case (Text, Raw(b)) => 4 + |b|
    case (Blob, Raw(b)) => 4 + |b|
    case (Rest, Raw(b)) => |b|
    case (Listing(e), Vals(vs)) => 4 + EachLen(e, vs)
    case (Record(fs), Vals(vs)) => FieldsLen(fs, vs)
    case (Attributes, Attr(a)) => AttrsLen(a)
    case (Pairs, Map(ps)) => PairsLen(ps)
    case _ => 0
  }

  function EachLen(e: Schema, vs: seq<Value>): nat
    decreases e, 2, |vs|
  {
    if vs == [] then 0 else Len(e, vs[0]) + EachLen(e, vs[1..])
  }

  function FieldsLen(fs: seq<Schema>, vs: seq<Value>): nat
    decreases fs, 0, 0
  {
    if fs == [] || vs == [] then 0 else Len(fs[0], vs[0]) + FieldsLen(fs[1..], vs[1..])
  }

  lemma {:induction false} PairsLenIsExact(ps: seq<Pair>)
    ensures |EncPairs(ps)| == PairsLen(ps)
  {
    if ps != [] { PairsLenIsExact(ps[1..]); }
  }

  lemma {:induction false} PairsLenAppend(ps: seq<Pair>, qs: seq<Pair>)
    ensures PairsLen(ps + qs) == PairsLen(ps) + PairsLen(qs) && PairsLen(ps) >= 8 * |ps|
  {
    if ps == [] {
      assert ps + qs == qs;
    } else {
      assert (ps + qs)[1..] == ps[1..] + qs;
      PairsLenAppend(ps[1..], qs);
    }
  }

  lemma {:induction false} TakenLen(ps: seq<Pair>)
    ensures |EncPairs(Taken(ps))| == PairsLen(ps) <==> |ps| < MAX32
    ensures PairsLen(ps) < MAX32 ==> |ps| < MAX32
  {
    var n := |ps| % MAX32;
    assert ps == ps[..n] + ps[n..] && |ps[n..]| == |ps| - n;
    assert |ps| < MAX32 <==> |ps| - n == 0;
    PairsLenIsExact(ps[..n]);
    PairsLenAppend(ps[..n], ps[n..]);
    PairsLenAppend(ps[n..], []);
    PairsLenAppend(ps, []);
  }

  /** The precomputed length of attributes is the length written exactly when their count is not cut. */
  lemma {:induction false} AttrsLenIsExactIff(a: Attrs)
    ensures |EncAttrs(a)| == AttrsLen(a) <==> |a.extended| < MAX32
    ensures AttrsLen(a) < MAX32 ==> |a.extended| < MAX32
  {
    TakenLen(a.extended);
  }

  /** The precomputed length is the length written, whenever it is small enough for a packet. */
  lemma {:induction false} LenIsExact(s: Schema, v: Value)
    ensures Len(s, v) < MAX32 ==> |Enc(s, v)| == Len(s, v)
    decreases s, 1, 0
  {
    match (s, v) {
      case (Listing(e), Vals(vs)) => EachLenIsExact(e, vs);
      case (Record(fs), Vals(vs)) => FieldsLenIsExact(fs, vs);
      case (Attributes, Attr(a)) => AttrsLenIsExactIff(a);
      case (Pairs, Map(ps)) => PairsLenIsExact(ps);
      case _ =>
    }
  }

  lemma {:induction false} EachLenIsExact(e: Schema, vs: seq<Value>)
    ensures EachLen(e, vs) < MAX32 ==> |EncEach(e, vs)| == EachLen(e, vs)
    decreases e, 2, |vs|
  {
    if vs != [] {
      LenIsExact(e, vs[0]);
      EachLenIsExact(e, vs[1..]);
    }
  }

  lemma {:induction false} FieldsLenIsExact(fs: seq<Schema>, vs: seq<Value>)
    ensures FieldsLen(fs, vs) < MAX32 ==> |EncFields(fs, vs)| == FieldsLen(fs, vs)
    decreases fs, 0, 0
  {
    if fs != [] && vs != [] {
      LenIsExact(fs[0], vs[0]);
      FieldsLenIsExact(fs[1..], vs[1..]);
    }
  }

  // --- Writing

  /** Every length fits in 32 bits. */
  predicate Short(s: Schema, v: Value)
    decreases s, 1, 0
  {
    match (s, v)
    case (Text, Raw(b)) => |b| < MAX32
    case (Blob, Raw(b)) => |b| < MAX32
    case (Listing(e), Vals(vs)) => |vs| < MAX32 && forall i :: 0 <= i < |vs| ==> Short(e, vs[i])
    case (Record(fs), Vals(vs)) => FieldsShort(fs, vs)
    case (Attributes, Attr(a)) => PairsShort(Taken(a.extended))
    case (Pairs, Map(ps)) => PairsShort(ps)
    case _ => true
  }

  predicate FieldsShort(fs: seq<Schema>, vs: seq<Value>)
    decreases fs, 0, 0
  {
    fs == [] || vs == [] || (Short(fs[0], vs[0]) && FieldsShort(fs[1..], vs[1..]))
  }

  predicate PairsShort(ps: seq<Pair>) {
    forall i :: 0 <= i < |ps| ==> |ps[i].key| < MAX32 && |ps[i].value| < MAX32
  }

  class Serializer {
    var output: Bytes

    constructor (start: Bytes)
      ensures output == start
    {
      output := start;
    }

    method PutBytes(b: Bytes) returns (ok: bool)
      modifies this
      ensures ok <==> |b| < MAX32
      ensures output == if ok then old(output) + Lengthed(b) else old(output)
    {
      if |b| >= MAX32 { return false; }
      output := output + Be(4, |b|);
      output := output + b;
      ok := true;
    }

    method PutPairs(ps: seq<Pair>) returns (ok: bool)
      modifies this
      ensures ok <==> PairsShort(ps)
      ensures ok ==> output == old(output) + EncPairs(ps)
    {
      for i := 0 to |ps|
        invariant PairsShort(ps[..i])
        invariant output + EncPairs(ps[i..]) == old(output) + EncPairs(ps)
      {
        assert ps[..i + 1] == ps[..i] + [ps[i]];
        ghost var before := output;
        ok := PutBytes(ps[i].key);
        if !ok { return; }
        ok := PutBytes(ps[i].value);
        if !ok { return; }
        PairsTail(before, output, ps, i);
      }
      assert ps[..|ps|] == ps && output + EncPairs(ps[|ps|..]) == output;
      ok := true;
    }

    method Put(s: Schema, v: Value) returns (ok: bool)
      modifies this
      ensures ok <==> Short(s, v)
      ensures ok ==> output == old(output) + Enc(s, v)
      decreases s, 1, 0
    {
      match (s, v) {
        case (U8, Num(n)) => output := output + Be(1, n);
        case (U32, Num(n)) => output := output + Be(4, n);
        case (U64, Num(n)) => output := output + Be(8, n);
        case (Choice(_), Num(n)) => output := output + Be(4, n);
        case (Text, Raw(b)) => ok := PutBytes(b); return;
        case (Blob, Raw(b)) => ok := PutBytes(b); return;
        case (Rest, Raw(b)) => output := output + b;
        case (Listing(e), Vals(vs)) => ok := PutListing(e, vs); return;
        case (Record(fs), Vals(vs)) => ok := PutFields(fs, vs); return;
        case (Attributes, Attr(a)) => ok := PutAttrs(a); return;
        case (Pairs, Map(ps)) => ok := PutPairs(ps); return;
        case _ =>
      }
      ok := true;
    }

    method PutListing(e: Schema, vs: seq<Value>) returns (ok: bool)
      modifies this
      ensures ok <==> |vs| < MAX32 && forall i :: 0 <= i < |vs| ==> Short(e, vs[i])
      ensures ok ==> output == old(output) + (Be(4, |vs|) + EncEach(e, vs))
      decreases e, 2, 0
    {
      if |vs| >= MAX32 { return false; }
      output := output + Be(4, |vs|);
      ghost var start := output;
      for i := 0 to |vs|
        invariant forall j :: 0 <= j < i ==> Short(e, vs[j])
        invariant output + EncEach(e, vs[i..]) == start + EncEach(e, vs)
      {
        ghost var before := output;
        ok := Put(e, vs[i]);
        if !ok { return; }
        EachTail(before, e, vs, i);
      }
      assert output + EncEach(e, vs[|vs|..]) == output;
      Reassociate(old(output), Be(4, |vs|), EncEach(e, vs));
      ok := true;
    }

    method PutFields(fs: seq<Schema>, vs: seq<Value>) returns (ok: bool)
      modifies this
      ensures ok <==> FieldsShort(fs, vs)
      ensures ok ==> output == old(output) + EncFields(fs, vs)
      decreases fs, 0, 0
    {
      if fs == [] || vs == [] {
        assert output == output + [];
        return true;
      }
      ok := Put(fs[0], vs[0]);
      if !ok { return; }
      ok := PutFields(fs[1..], vs[1..]);
      FieldsTail(old(output), fs, vs);
    }

    method PutIf(flag: bool, b: Bytes)
      modifies this
      ensures output == old(output) + IfFlag(flag, b)
    {
      assert output + [] == output;
      if flag { output := output + b; }
    }

    method PutAttrs(a: Attrs) returns (ok: bool)
      modifies this
      ensures ok <==> PairsShort(Taken(a.extended))
      ensures ok ==> output == old(output) + EncAttrs(a)
    {
      ghost var start := output;
      output := output + Be(4, FlagBits(FlagsOf(a)));
      PutIf(a.size.Some?, Be(8, OrZero(a.size)));
      PutIf(HasOwner(a), Be(4, OrZero(a.uid)) + Be(4, OrZero(a.gid)));
      PutIf(a.perm.Some?, Be(4, OrZero(a.perm)));
      PutIf(HasTimes(a), Be(4, OrZero(a.atime)) + Be(4, OrZero(a.mtime)));
      ok := PutExtended(a);
      if ok { AttrsInParts(start, a); }
    }

    method PutExtended(a: Attrs) returns (ok: bool)
      modifies this
      ensures ok <==> PairsShort(Taken(a.extended))
      ensures ok ==> output == old(output) + ExtendedPart(a)
    {
      if a.extended == [] {
        assert output + [] == output && Taken([]) == [];
        return true;
      }
      output := output + Be(4, |a.extended|);
      ok := PutPairs(Taken(a.extended));
      Reassociate(old(output), Be(4, |a.extended|), EncPairs(Taken(a.extended)));
    }
  }

  lemma {:induction false} AttrsInParts(start: Bytes, a: Attrs)
    ensures start + Be(4, FlagBits(FlagsOf(a))) + SizePart(a) + OwnerPart(a) + PermPart(a) + TimesPart(a)
              + ExtendedPart(a) == start + EncAttrs(a)
  {
    var b := Be(4, FlagBits(FlagsOf(a)));
    Reassociate(start, b, SizePart(a));
    Reassociate(start, b + SizePart(a), OwnerPart(a));
    Reassociate(start, b + SizePart(a) + OwnerPart(a), PermPart(a));
    Reassociate(start, b + SizePart(a) + OwnerPart(a) + PermPart(a), TimesPart(a));
    Reassociate(start, b + SizePart(a) + OwnerPart(a) + PermPart(a) + TimesPart(a), ExtendedPart(a));
    assert EncAttrs(a) == b + SizePart(a) + OwnerPart(a) + PermPart(a) + TimesPart(a) + ExtendedPart(a);
  }

  lemma {:induction false} PairsTail(before: Bytes, output: Bytes, ps: seq<Pair>, i: nat)
    requires i < |ps| && output == before + Lengthed(ps[i].key) + Lengthed(ps[i].value)
    ensures output + EncPairs(ps[i + 1..]) == before + EncPairs(ps[i..])
  {
    assert ps[i..][1..] == ps[i + 1..];
    var k, v, t := Lengthed(ps[i].key), Lengthed(ps[i].value), EncPairs(ps[i + 1..]);
    assert before + (k + v + t) == before + k + v + t;
  }

  lemma {:induction false} EachTail(before: Bytes, e: Schema, vs: seq<Value>, i: nat)
    requires i < |vs|
    ensures before + Enc(e, vs[i]) + EncEach(e, vs[i + 1..]) == before + EncEach(e, vs[i..])
  {
    assert vs[i..][1..] == vs[i + 1..];
    Reassociate(before, Enc(e, vs[i]), EncEach(e, vs[i + 1..]));
  }

  lemma {:induction false} FieldsTail(before: Bytes, fs: seq<Schema>, vs: seq<Value>)
    requires fs != [] && vs != []
    ensures before + Enc(fs[0], vs[0]) + EncFields(fs[1..], vs[1..]) == before + EncFields(fs, vs)
  {
    Reassociate(before, Enc(fs[0], vs[0]), EncFields(fs[1..], vs[1..]));
  }

  // --- Reading

  /** What a reading step may leave behind: on success the value and the rest, otherwise nothing. */
  ghost predicate Reads<T>(r: Res<T>, value: Option<T>, input: Bytes) {
    match r
    case Err => value == None
    case Ok(v, rest) => value == Some(v) && input == rest
  }

  /** A result with what was read before it. */
  function Prefixed<T>(got: seq<T>, r: Res<seq<T>>): Res<seq<T>> {
    match r case Err => Err case Ok(more, end) => Ok(got + more, end)
  }

  lemma {:induction false} PrefixedNone<T>(r: Res<seq<T>>)
    ensures Prefixed([], r) == r
  {
    if r.Ok? { assert [] + r.value == r.value; }
  }

  lemma {:induction false} PrefixedMore<T>(got: seq<T>, x: T, r: Res<seq<T>>)
    ensures Prefixed(got, Prefixed([x], r)) == Prefixed(got + [x], r)
  {
    if r.Ok? { assert got + ([x] + r.value) == got + [x] + r.value; }
  }

  /** Pairs that were read, as the map they make. */
  function MapRes(r: Res<seq<Pair>>): Res<seq<Pair>> {
    match r case Err => Err case Ok(ps, rest) => Ok(Collected(ps), rest)
  }

  lemma {:induction false} CollectedMore(raw: seq<Pair>, p: Pair)
    ensures Collected(raw + [p]) == Inserted(Collected(raw), p)
  {
    assert (raw + [p])[..|raw|] == raw;
  }

  lemma {:induction false} EachInTurn(e: Schema, n: nat, input: Bytes)
    requires n > 0
    ensures Dec(e, input).Err? ==> DecEach(e, n, input).Err?
    ensures Dec(e, input).Ok? ==>
      DecEach(e, n, input) == Prefixed([Dec(e, input).value], DecEach(e, n - 1, Dec(e, input).rest))
  {}

  lemma {:induction false} AndOneMore(e: Schema, got: seq<Value>, n: nat, input: Bytes, v: Value, rest: Bytes)
    requires n > 0 && Dec(e, input) == Ok(v, rest)
    ensures Prefixed(got, DecEach(e, n, input)) == Prefixed(got + [v], DecEach(e, n - 1, rest))
  {
    EachInTurn(e, n, input);
    PrefixedMore(got, v, DecEach(e, n - 1, rest));
  }

  class Deserializer {
    var input: Bytes

    constructor (input: Bytes)
      ensures this.input == input
    {
      this.input := input;
    }

    method TakeNum(k: nat) returns (n: Option<nat>)
      modifies this
      ensures Reads(DecNum(k, old(input)), n, input)
    {
      if |input| < k { return None; }
      n := Some(UnBe(input[..k]));
      input := input[k..];
    }

    method TakeLengthed() returns (b: Option<Bytes>)
      modifies this
      ensures Reads(DecLengthed(old(input)), b, input)
    {
      var n := TakeNum(4);
      if n == None || |input| < n.value { return None; }
      b := Some(input[..n.value]);
      input := input[n.value..];
    }

    method TakeText() returns (b: Option<Bytes>)
      modifies this
      ensures Reads(DecText(old(input)), b, input)
    {
      b := TakeLengthed();
      if b.Some? && !Utf8(b.value) { return None; }
    }

    method TakePair() returns (p: Option<Pair>)
      modifies this
      ensures Reads(DecPair(old(input)), p, input)
    {
      var k := TakeText();
      if k == None { return None; }
      var v := TakeText();
      if v == None { return None; }
      p := Some(Pair(k.value, v.value));
    }

    /** Inserts pair after pair into a map, later keys winning. */
    method TakePairs() returns (ps: Option<seq<Pair>>)
      modifies this
      ensures Reads(MapRes(DecPairs(old(input))), ps, input)
    {
      var got: seq<Pair> := [];
      ghost var raw: seq<Pair>, whole := [], DecPairs(input);
      PrefixedNone(whole);
      while input != []
        invariant Prefixed(raw, DecPairs(input)) == whole && got == Collected(raw)
        decreases |input|
      {
        DecPairConsumes(input);
        var p := TakePair();
        if p == None { return None; }
        PrefixedMore(raw, p.value, DecPairs(input));
        CollectedMore(raw, p.value);
        got := Inserted(got, p.value);
        raw := raw + [p.value];
      }
      ps := Some(got);
      assert raw + [] == raw;
    }

    method Take(s: Schema) returns (v: Option<Value>)
      modifies this
      ensures Reads(Dec(s, old(input)), v, input)
      decreases s, 1, 0
    {
      match s {
        case U8 => v := TakeBelow(1, 256);
        case U32 => v := TakeBelow(4, MAX32);
        case U64 => v := TakeBelow(8, MAX64);
        case Choice(n) => v := TakeBelow(4, n);
        case Text =>
          var b := TakeText();
          v := if b.Some? then Some(Raw(b.value)) else None;
        case Blob =>
          var b := TakeLengthed();
          v := if b.Some? then Some(Raw(b.value)) else None;
        case Rest =>
          v := Some(Raw(input));
          input := [];
        case Nothing => v := Some(Void);
        case Listing(e) =>
          var n := TakeNum(4);
          if n == None { return None; }
          var vs := TakeEach(e, n.value);
          v := if vs.Some? then Some(Vals(vs.value)) else None;
        case Record(fs) =>
          var vs := TakeFields(fs);
          v := if vs.Some? then Some(Vals(vs.value)) else None;
        case Attributes =>
          var a := TakeAttrs();
          v := if a.Some? then Some(Attr(a.value)) else None;
        case Pairs =>
          var ps := TakePairs();
          v := if ps.Some? then Some(Map(ps.value)) else None;
      }
    }

    method TakeBelow(k: nat, limit: nat) returns (v: Option<Value>)
      modifies this
      ensures Reads(NumRes(DecNum(k, old(input)), limit), v, input)
    {
      var n := TakeNum(k);
      v := if n.Some? && n.value < limit then Some(Num(n.value)) else None;
    }

    method TakeEach(e: Schema, n: nat) returns (vs: Option<seq<Value>>)
      modifies this
      ensures Reads(DecEach(e, n, old(input)), vs, input)
      decreases e, 2, 0
    {
      var got: seq<Value> := [];
      ghost var whole := DecEach(e, n, input);
      PrefixedNone(whole);
      for i := 0 to n
        invariant Prefixed(got, DecEach(e, n - i, input)) == whole
      {
        ghost var before := input;
        var v := Take(e);
        if v == None {
          EachInTurn(e, n - i, before);
          return None;
        }
        AndOneMore(e, got, n - i, before, v.value, input);
        got := got + [v.value];
      }
      vs := Some(got);
      assert got + [] == got;
    }

    method TakeFields(fs: seq<Schema>) returns (vs: Option<seq<Value>>)
      modifies this
      ensures Reads(DecFields(fs, old(input)), vs, input)
      decreases fs, 0, 0
    {
      if fs == [] { return Some([]); }
      var v := Take(fs[0]);
      if v == None { return None; }
      var rest := TakeFields(fs[1..]);
      vs := if rest.Some? then Some([v.value] + rest.value) else None;
    }

    method TakeOptional(flag: bool, k: nat) returns (n: Option<Option<nat>>)
      modifies this
      ensures Reads(DecOptional(flag, k, old(input)), n, input)
    {
      if !flag { return Some(None); }
      var m := TakeNum(k);
      n := if m.Some? then Some(m) else None;
    }

    method TakeTwo(flag: bool) returns (p: Option<(Option<nat>, Option<nat>)>)
      modifies this
      ensures Reads(DecTwo(flag, old(input)), p, input)
    {
      var x := TakeOptional(flag, 4);
      if x == None { return None; }
      var y := TakeOptional(flag, 4);
      if y == None { return None; }
      p := Some((x.value, y.value));
    }

    method TakeExtended(flag: bool) returns (ps: Option<seq<Pair>>)
      modifies this
      ensures Reads(MapRes(DecExtended(flag, old(input))), ps, input)
    {
      if !flag { return Some([]); }
      var n := TakeNum(4);
      if n == None { return None; }
      ps := TakePairsN(n.value);
    }

    method TakePairsN(n: nat) returns (ps: Option<seq<Pair>>)
      modifies this
      ensures Reads(MapRes(DecPairsN(n, old(input))), ps, input)
    {
      var got: seq<Pair> := [];
      ghost var raw: seq<Pair>, whole := [], DecPairsN(n, input);
      PrefixedNone(whole);
      for i := 0 to n
        invariant Prefixed(raw, DecPairsN(n - i, input)) == whole && got == Collected(raw)
      {
        var p := TakePair();
        if p == None { return None; }
        PrefixedMore(raw, p.value, DecPairsN(n - i - 1, input));
        CollectedMore(raw, p.value);
        got := Inserted(got, p.value);
        raw := raw + [p.value];
      }
      ps := Some(got);
      assert raw + [] == raw;
    }

    method TakeAttrs() returns (a: Option<Attrs>)
      modifies this
      ensures Reads(DecAttrs(old(input)), a, input)
    {
      if input == [] { return Some(NO_ATTRS); }
      var bits := TakeNum(4);
      if bits == None { return None; }
      var f := BitsToFlags(bits.value);
      var size := TakeOptional(f.size, 8);
      if size == None { return None; }
      var owner := TakeTwo(f.owner);
      if owner == None { return None; }
      a := TakeLaterParts(f, NO_ATTRS.(size := size.value, uid := owner.value.0, gid := owner.value.1));
    }

    method TakeLaterParts(f: Flags, b: Attrs) returns (a: Option<Attrs>)
      modifies this
      ensures Reads(DecLaterParts(f, b, old(input)), a, input)
    {
      var perm := TakeOptional(f.perm, 4);
      if perm == None { return None; }
      var times := TakeTwo(f.times);
      if times == None { return None; }
      var ext := TakeExtended(f.extended);
      if ext == None { return None; }
      a := Some(b.(perm := perm.value, atime := times.value.0, mtime := times.value.1, extended := ext.value));
    }
  }

  // --- Packets and frames

  datatype Packet = Packet(kind: Kind, value: Value)

  predicate PacketFits(p: Packet) { Fits(SchemaOf(p.kind), p.value) }

  function Body(p: Packet): Bytes { [KindByte(p.kind)] + Enc(SchemaOf(p.kind), p.value) }

  function Frame(body: Bytes): Bytes { Be(4, |body|) + body }

  method WriteFrame(kind: byte, s: Schema, v: Value) returns (r: Option<Bytes>)
    ensures r.Some? <==> 1 + Len(s, v) < MAX32 && Short(s, v)
    ensures r.Some? ==> r.value == Frame([kind] + Enc(s, v))
  {
    LenIsExact(s, v);
    var len := 1 + Len(s, v);
    if len >= MAX32 { return None; }
    var ser := new Serializer(Be(4, len) + [kind]);
    var ok := ser.Put(s, v);
    r := if ok then Some(ser.output) else None;
    Reassociate(Be(4, len), [kind], Enc(s, v));
  }

  /** The packet and every length in it fit in 32 bits. */
  predicate Writable(p: Packet) { 1 + Len(SchemaOf(p.kind), p.value) < MAX32 && Short(SchemaOf(p.kind), p.value) }

  /** The length is computed first; a packet too large for it is refused, and so is one that cannot be
      written. */
  method ToBytes(p: Packet) returns (r: Option<Bytes>)
    ensures r.Some? <==> Writable(p)
    ensures r.Some? ==> r.value == Frame(Body(p))
  {
    r := WriteFrame(KindByte(p.kind), SchemaOf(p.kind), p.value);
  }

  function Parsed(body: Bytes): Option<Packet> {
    if body == [] || ResponseKind(body[0]) == None then None
    else
      var k := ResponseKind(body[0]).value;
      match Once(SchemaOf(k), body[1..])
      case None => None
      case Some(v) => Some(Packet(k, v))
  }

  method FromBytes(body: Bytes) returns (p: Option<Packet>)
    ensures p == Parsed(body)
  {
    if body == [] { return None; }
    var k := ResponseKind(body[0]);
    if k == None { return None; }
    var de := new Deserializer(body[1..]);
    var v := de.Take(SchemaOf(k.value));
    if v == None || de.input != [] { return None; }
    p := Some(Packet(k.value, v.value));
  }

  lemma {:induction false} SchemasEndWell(k: Kind)
    requires IsResponse(k)
    ensures EndsWell(ResponseSchema(k))
  {
    match k {
      case Version => TwoEndWell(U32, Pairs);
      case Status => StatusEndsWell();
      case Handle => TwoEndWell(U32, Text);
      case Data => TwoEndWell(U32, Listing(U8));
      case Name => NamesEndWell();
      case AttrsReply => TwoEndWell(U32, Attributes);
      case ExtendedReply => TwoEndWell(U32, Rest);
    }
  }

  lemma {:induction false} KindsAreTold(k: Kind)
    requires IsResponse(k)
    ensures ResponseKind(KindByte(k)) == Some(k)
  {}

  lemma {:induction false} TwoEndWell(s: Schema, t: Schema)
    requires Closed(s) && EndsWell(t)
    ensures EndsWell(Record([s, t]))
  {
    assert [s, t][1..] == [t] && LastEndsWell([t]);
  }

  lemma StatusEndsWell()
    ensures EndsWell(Record([U32, Choice(STATUS_CODES), Text, Text]))
  {
    var c := Choice(STATUS_CODES);
    assert [Text, Text][1..] == [Text] && LastEndsWell([Text, Text]);
    assert [c, Text, Text][1..] == [Text, Text] && LastEndsWell([c, Text, Text]);
    assert [U32, c, Text, Text][1..] == [c, Text, Text];
  }

  lemma NamesEndWell()
    ensures EndsWell(Record([U32, Listing(Record([Listing(U8), Listing(U8), Attributes]))]))
  {
    var b := Listing(U8);
    assert AllClosed([]) && [Attributes][1..] == [] && AllClosed([Attributes]);
    assert [b, Attributes][1..] == [Attributes] && AllClosed([b, Attributes]);
    assert [b, b, Attributes][1..] == [b, Attributes];
    TwoEndWell(U32, Listing(Record([b, b, Attributes])));
  }

  /** A response that was written is read back, whatever its type. */
  lemma {:induction false} ResponseRoundTrip(p: Packet)
    requires IsResponse(p.kind) && PacketFits(p)
    ensures Parsed(Body(p)) == Some(p)
  {
    SchemasEndWell(p.kind);
    KindsAreTold(p.kind);
    EndRoundTrip(SchemaOf(p.kind), p.value);
    assert Body(p)[0] == KindByte(p.kind) && Body(p)[1..] == Enc(SchemaOf(p.kind), p.value);
  }

  lemma {:induction false} KindsMatch(b: byte, k: Kind)
    ensures ResponseKind(b) == Some(k) <==> IsResponse(k) && KindByte(k) == b
  {}

  lemma {:induction false} ParsedMeans(body: Bytes, p: Packet)
    requires body != []
    ensures Parsed(body) == Some(p) <==>
            ResponseKind(body[0]) == Some(p.kind) && Once(SchemaOf(p.kind), body[1..]) == Some(p.value)
  {}

  lemma {:induction false} BodyMeans(body: Bytes, p: Packet)
    requires body != []
    ensures body == Body(p) <==> body[0] == KindByte(p.kind) && body[1..] == Enc(SchemaOf(p.kind), p.value)
  {
    assert body == [body[0]] + body[1..];
    var b := Body(p);
    assert b[0] == KindByte(p.kind) && b[1..] == Enc(SchemaOf(p.kind), p.value);
  }

  /** The converse: a body is parsed as a packet, the attributes in it as they are written, exactly when it is
      the body of that response. */
  lemma {:induction false} ParsedIffWritten(body: Bytes, p: Packet)
    ensures Parsed(body) == Some(p) && Canonical(SchemaOf(p.kind), body[1..]) <==>
            IsResponse(p.kind) && PacketFits(p) && body == Body(p)
  {
    if body != [] {
      ParsedMeans(body, p);
      BodyMeans(body, p);
      KindsMatch(body[0], p.kind);
      if IsResponse(p.kind) {
        SchemasEndWell(p.kind);
        OnceIffEncoding(SchemaOf(p.kind), body[1..], p.value);
      }
    }
  }

  lemma {:induction false} LastField(s: Schema, input: Bytes, v: Value)
    requires Dec(s, input) == Ok(v, [])
    ensures DecFields([s], input) == Ok([v], []) && (FieldsCanonical([s], input) <==> Canonical(s, input))
  {
    assert [s][1..] == [] && [v] + [] == [v];
  }

  lemma {:induction false} TwoFields(s: Schema, t: Schema, input: Bytes, v: Value, rest: Bytes, w: Value)
    requires Dec(s, input) == Ok(v, rest) && Dec(t, rest) == Ok(w, [])
    ensures DecFields([s, t], input) == Ok([v, w], [])
    ensures FieldsCanonical([s, t], input) <==> Canonical(s, input) && Canonical(t, rest)
  {
    assert [s, t][1..] == [t] && [v] + [w] == [v, w];
    LastField(t, rest, w);
  }

  lemma {:induction false} VersionDecodes(n: nat, ps: seq<Pair>)
    requires n < MAX32 && PairsFit(ps)
    ensures var fs, input := [U32, Pairs], Be(4, n) + EncPairs(ps);
      && DecFields(fs, input) == Ok([Num(n), Map(Collected(ps))], [])
      && (FieldsCanonical(fs, input) <==> KeysApart(ps))
  {
    Num32RoundTrip(n, EncPairs(ps));
    PairsRoundTrip(ps);
    TwoFields(U32, Pairs, Be(4, n) + EncPairs(ps), Num(n), EncPairs(ps), Map(Collected(ps)));
  }

  /** A Version reply that names an extension twice is parsed with the last naming only, and is the body of no
      response. */
  lemma {:induction false} RepeatedExtensionsAreDropped(n: nat, ps: seq<Pair>)
    requires n < MAX32 && PairsFit(ps) && !KeysApart(ps)
    ensures var body := [KindByte(Version)] + (Be(4, n) + EncPairs(ps));
      && Parsed(body) == Some(Packet(Version, Vals([Num(n), Map(Collected(ps))])))
      && forall q: Packet :: IsResponse(q.kind) && PacketFits(q) ==> body != Body(q)
  {
    var input := Be(4, n) + EncPairs(ps);
    var body, p := [KindByte(Version)] + input, Packet(Version, Vals([Num(n), Map(Collected(ps))]));
    assert body[0] == KindByte(Version) && body[1..] == input;
    VersionDecodes(n, ps);
    ParsedMeans(body, p);
    KindsMatch(body[0], Version);
    forall q: Packet | IsResponse(q.kind) && PacketFits(q) ensures body != Body(q) {
      ParsedIffWritten(body, q);
      ParsedIffWritten(body, p);
    }
  }

  const LIMIT: nat := 1024 * 1024

  /** Reading one frame off the channel; the reader gives up on a frame over the limit and on a channel
      that ends too early. */
  function ReadFrame(channel: Bytes): Res<Bytes> {
    match DecNum(4, channel)
    case Err => Err
    case Ok(len, rest) =>
      if len > LIMIT || |rest| < len then Err else Ok(rest[..len], rest[len..])
  }

  /** The frames read until the reader gives up. */
  function ReadFrames(channel: Bytes): seq<Bytes>
    decreases |channel|
  {
    match ReadFrame(channel)
    case Err => []
    case Ok(body, rest) => [body] + ReadFrames(rest)
  }

  method ReadLoop(channel: Bytes) returns (bodies: seq<Bytes>)
    ensures bodies == ReadFrames(channel)
  {
    bodies := [];
    var rest := channel;
    while true
      invariant bodies + ReadFrames(rest) == ReadFrames(channel)
      decreases |rest|
    {
      if |rest| < 4 { return; }
      var len := UnBe(rest[..4]);
      if len > LIMIT || |rest| - 4 < len { return; }
      ghost var tail := ReadFrames(rest[4..][len..]);
      assert bodies + ([rest[4..][..len]] + tail) == bodies + [rest[4..][..len]] + tail;
      bodies := bodies + [rest[4..][..len]];
      rest := rest[4..][len..];
    }
  }

  function Channel(bodies: seq<Bytes>): Bytes {
    if bodies == [] then [] else Frame(bodies[0]) + Channel(bodies[1..])
  }

  /** The bodies before the first that is over the limit. */
  function Readable(bodies: seq<Bytes>): seq<Bytes> {
    if bodies == [] || |bodies[0]| > LIMIT then [] else [bodies[0]] + Readable(bodies[1..])
  }

  lemma {:induction false} FrameIsRead(body: Bytes, rest: Bytes)
    requires |body| < MAX32
    ensures ReadFrame(Frame(body) + rest) == if |body| > LIMIT then Err else Ok(body, rest)
  {
    Reassociate(Be(4, |body|), body, rest);
    Num32RoundTrip(|body|, body + rest);
    assert (body + rest)[..|body|] == body && (body + rest)[|body|..] == rest;
  }

  lemma {:induction false} FirstAndRest(bodies: seq<Bytes>)
    requires bodies != []
    ensures bodies == [bodies[0]] + bodies[1..]
    ensures (forall i :: 0 <= i < |bodies| ==> |bodies[i]| <= LIMIT) <==>
            |bodies[0]| <= LIMIT && forall i :: 0 <= i < |bodies[1..]| ==> |bodies[1..][i]| <= LIMIT
  {
    assert forall i :: 1 <= i < |bodies| ==> bodies[i] == bodies[1..][i - 1];
  }

  /** A sequence of frames splits into exactly its bodies, up to the first over the limit. */
  lemma {:induction false} FramesSplit(bodies: seq<Bytes>)
    requires forall i :: 0 <= i < |bodies| ==> |bodies[i]| < MAX32
    ensures ReadFrames(Channel(bodies)) == Readable(bodies)
    ensures ReadFrames(Channel(bodies)) == bodies <==> forall i :: 0 <= i < |bodies| ==> |bodies[i]| <= LIMIT
  {
    if bodies != [] {
      FrameIsRead(bodies[0], Channel(bodies[1..]));
      FramesSplit(bodies[1..]);
      FirstAndRest(bodies);
    }
  }

  /** Responses of any types sent one after the other arrive as they were sent. */
  lemma {:induction false} ResponsesArrive(ps: seq<Packet>, i: nat)
    requires i < |ps| && forall j :: 0 <= j < |ps| ==>
      IsResponse(ps[j].kind) && PacketFits(ps[j]) && |Body(ps[j])| <= LIMIT
    ensures var bodies := ReadFrames(Channel(seq(|ps|, j requires 0 <= j < |ps| => Body(ps[j]))));
      |bodies| == |ps| && Parsed(bodies[i]) == Some(ps[i])
  {
    var sent := seq(|ps|, j requires 0 <= j < |ps| => Body(ps[j]));
    FramesSplit(sent);
    ResponseRoundTrip(ps[i]);
  }

  // --- Request ids

  /** The id of a packet, by which a response finds its request; Init and Version have none. */
  function IdOf(p: Packet): nat {
    if p.kind == Init || p.kind == Version then 0
    else match p.value
      case Vals(vs) => if vs != [] && vs[0].Num? then vs[0].n else 0
      case _ => 0
  }

  function WithId(p: Packet, id: nat): Packet {
    if p.kind == Init || p.kind == Version then p
    else match p.value
      case Vals(vs) => if vs != [] && vs[0].Num? then p.(value := Vals(vs[0 := Num(id)])) else p
      case _ => p
  }

  lemma {:induction false} SchemaStartsWithId(k: Kind)
    ensures SchemaOf(k).Record? && SchemaOf(k).fields != [] && SchemaOf(k).fields[0] == U32
  {}

  lemma {:induction false} SettingIdFits(fs: seq<Schema>, vs: seq<Value>, id: nat)
    requires fs != [] && fs[0] == U32 && FieldsFit(fs, vs) && id < MAX32
    ensures vs != [] && vs[0].Num? && FieldsFit(fs, vs[0 := Num(id)])
    ensures EncFields(fs, vs) == Be(4, vs[0].n) + EncFields(fs[1..], vs[1..])
    ensures EncFields(fs, vs[0 := Num(id)]) == Be(4, id) + EncFields(fs[1..], vs[1..])
  {
    assert vs[0 := Num(id)][1..] == vs[1..];
  }

  lemma {:induction false} SpliceId(k: byte, a: Bytes, b: Bytes, rest: Bytes)
    requires |a| == |b| == 4
    ensures [k] + (b + rest) == ([k] + (a + rest))[..1] + b + ([k] + (a + rest))[5..]
  {
    assert ([k] + (a + rest))[5..] == rest;
  }

  /** Setting the id keeps the packet well formed, changes its encoding in the id's four bytes only, and is
      read back; on Init and Version it does nothing. */
  lemma {:induction false} WithIdSetsId(p: Packet, id: nat)
    requires PacketFits(p) && id < MAX32
    ensures PacketFits(WithId(p, id))
    ensures IdOf(WithId(p, id)) == if p.kind == Init || p.kind == Version then 0 else id
    ensures p.kind != Init && p.kind != Version ==>
      |Body(p)| >= 5 && Body(WithId(p, id)) == Body(p)[..1] + Be(4, id) + Body(p)[5..]
  {
    SchemaStartsWithId(p.kind);
    if p.kind != Init && p.kind != Version {
      var fs, vs := SchemaOf(p.kind).fields, p.value.vs;
      SettingIdFits(fs, vs, id);
      SpliceId(KindByte(p.kind), Be(4, vs[0].n), Be(4, id), EncFields(fs[1..], vs[1..]));
    }
  }
}
