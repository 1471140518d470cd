/** The natural comparison of yazi-shared/src/natsort.rs: two byte strings are compared token
    by token, where a token is a maximal run of digits or a single other byte, and white space
    only separates tokens. */
module NatSort {
  import opened Ordering

  predicate IsDigit(b: byte) { 48 <= b <= 57 }

  /** Space, tab, line feed, form feed and carriage return. */
  predicate IsSpace(b: byte) { b == 32 || b == 9 || b == 10 || b == 12 || b == 13 }

  function Lower(b: byte): byte { if 65 <= b <= 90 then b + 32 else b }

  // --- The order the comparison is meant to compute

  datatype Token = Run(digits: seq<byte>) | Byte(b: byte)

  /** The first position at or after i that holds no digit. */
  function DigitsEnd(s: seq<byte>, i: nat): (e: nat)
    requires i <= |s|
    ensures i <= e <= |s|
    decreases |s| - i
  {
    if i < |s| && IsDigit(s[i]) then DigitsEnd(s, i + 1) else i
  }

  function Tokens(s: seq<byte>, i: nat): seq<Token>
    requires i <= |s|
    decreases |s| - i
  {
    if i == |s| then []
    else if IsSpace(s[i]) then Tokens(s, i + 1)
    else if IsDigit(s[i]) then [Run(s[i..DigitsEnd(s, i)])] + Tokens(s, DigitsEnd(s, i))
    else [Byte(s[i])] + Tokens(s, i + 1)
  }

  /** Where a token stands: digits lie between the bytes below '0' and those above '9'; among
      digit runs, those led by a zero come first and compare left to right, the others compare
      by length and then left to right. */
  function Key(insensitive: bool, t: Token): seq<int> {
    match t
    case Byte(b) => [if insensitive then Lower(b) else b]
    case Run(ds) => if ds != [] && ds[0] == 48 then [48] + ds else [49] + ([|ds|] + ds)
  }

  function CmpToken(insensitive: bool, x: Token, y: Token): Ordering {
    Lex(Key(insensitive, x), Key(insensitive, y))
  }

  function CmpTokens(insensitive: bool, a: seq<Token>, b: seq<Token>): Ordering {
    if a == [] then (if b == [] then Equal else Less)
    else if b == [] then Greater
    else Then(CmpToken(insensitive, a[0], b[0]), CmpTokens(insensitive, a[1..], b[1..]))
  }

  function NatCmp(insensitive: bool, a: seq<byte>, b: seq<byte>): Ordering {
    CmpTokens(insensitive, Tokens(a, 0), Tokens(b, 0))
  }

  // --- It is a total preorder, and numbers compare as numbers

  lemma {:induction false} CmpTokensFlip(ins: bool, a: seq<Token>, b: seq<Token>)
    ensures CmpTokens(ins, b, a) == Flip(CmpTokens(ins, a, b))
  {
    if a != [] && b != [] {
      LexFlip(Key(ins, a[0]), Key(ins, b[0]));
      CmpTokensFlip(ins, a[1..], b[1..]);
    }
  }

  lemma {:induction false} CmpTokensChain(ins: bool, a: seq<Token>, b: seq<Token>, c: seq<Token>)
    ensures Chain(CmpTokens(ins, a, b), CmpTokens(ins, b, c), CmpTokens(ins, a, c))
  {
    if a != [] && b != [] && c != [] {
      LexChain(Key(ins, a[0]), Key(ins, b[0]), Key(ins, c[0]));
      CmpTokensChain(ins, a[1..], b[1..], c[1..]);
    }
  }

  /** The order a sort relies on: comparing with itself ties, swapping flips, `<=` is transitive
      and ties are an equivalence, for all byte strings. */
  lemma {:induction false} NatCmpIsTotalPreorder(ins: bool, a: seq<byte>, b: seq<byte>, c: seq<byte>)
    ensures NatCmp(ins, a, a) == Equal
    ensures NatCmp(ins, b, a) == Flip(NatCmp(ins, a, b))
    ensures Chain(NatCmp(ins, a, b), NatCmp(ins, b, c), NatCmp(ins, a, c))
  {
    CmpTokensFlip(ins, Tokens(a, 0), Tokens(a, 0));
    CmpTokensFlip(ins, Tokens(a, 0), Tokens(b, 0));
    CmpTokensChain(ins, Tokens(a, 0), Tokens(b, 0), Tokens(c, 0));
  }

  ghost predicate Digits(ds: seq<byte>) { forall i :: 0 <= i < |ds| ==> IsDigit(ds[i]) }

  function Pow10(n: nat): nat { if n == 0 then 1 else 10 * Pow10(n - 1) }

  /** The decimal number a digit run denotes. */
  function Value(ds: seq<byte>): int {
    if ds == [] then 0 else 10 * Value(ds[..|ds| - 1]) + ds[|ds| - 1] as int - 48
  }

  lemma {:induction false} ValueBound(ds: seq<byte>)
    requires Digits(ds)
    ensures 0 <= Value(ds) < Pow10(|ds|)
    ensures ds != [] && ds[0] != 48 ==> Pow10(|ds| - 1) <= Value(ds)
  {
    if ds != [] { ValueBound(ds[..|ds| - 1]); }
  }

  lemma {:induction false} Pow10Monotone(m: nat, n: nat)
    requires m <= n
    ensures Pow10(m) <= Pow10(n)
    decreases n
  {
    if m < n { Pow10Monotone(m, n - 1); }
  }

  lemma {:induction false} SameLengthByValue(x: seq<byte>, y: seq<byte>)
    requires Digits(x) && Digits(y) && |x| == |y|
    ensures Lex(x, y) == CmpInt(Value(x), Value(y))
  {
    if x != [] {
      var n := |x| - 1;
      SameLengthByValue(x[..n], y[..n]);
      LexSnoc(x[..n], x[n], y[..n], y[n]);
      assert x == x[..n] + [x[n]] && y == y[..n] + [y[n]];
    }
  }

  lemma {:induction false} NonzeroRunOrder(ins: bool, x: seq<byte>, y: seq<byte>)
    requires x != [] && y != [] && x[0] != 48 && y[0] != 48
    ensures CmpToken(ins, Run(x), Run(y)) == Then(CmpInt(|x|, |y|), Lex(x, y))
  {
    LexCons(49, [|x|] + x, 49, [|y|] + y);
    LexCons(|x|, x, |y|, y);
  }

  lemma {:induction false} LongerIsMore(x: seq<byte>, y: seq<byte>)
    requires Digits(x) && Digits(y) && |x| < |y| && y[0] != 48
    ensures Value(x) < Value(y)
  {
    ValueBound(x);
    ValueBound(y);
    Pow10Monotone(|x|, |y| - 1);
  }

  /** Two digit runs without a leading zero compare as the numbers they denote. */
  lemma {:induction false} RunsCompareAsNumbers(ins: bool, x: seq<byte>, y: seq<byte>)
    requires Digits(x) && Digits(y) && x != [] && y != [] && x[0] != 48 && y[0] != 48
    ensures CmpToken(ins, Run(x), Run(y)) == CmpInt(Value(x), Value(y))
  {
    NonzeroRunOrder(ins, x, y);
    if |x| < |y| {
      LongerIsMore(x, y);
    } else if |x| > |y| {
      LongerIsMore(y, x);
    } else {
      SameLengthByValue(x, y);
    }
  }

  // --- The comparison loops

  predicate DigitAt(s: seq<byte>, i: nat) { i < |s| && IsDigit(s[i]) }

  /** Compares two digit runs left to right; on a tie both positions have moved past the run. */
  method CompareLeft(left: seq<byte>, right: seq<byte>, li0: nat, ri0: nat)
    returns (ord: Ordering, li: nat, ri: nat)
    requires li0 <= |left| && ri0 <= |right|
    ensures ord == Lex(left[li0..DigitsEnd(left, li0)], right[ri0..DigitsEnd(right, ri0)])
    ensures ord == Equal ==> li == DigitsEnd(left, li0) && ri == DigitsEnd(right, ri0)
  {
    li, ri := li0, ri0;
    ghost var le, re := DigitsEnd(left, li0), DigitsEnd(right, ri0);
    while true
      invariant li0 <= li <= le && ri0 <= ri <= re
      invariant DigitsEnd(left, li) == le && DigitsEnd(right, ri) == re
      invariant Lex(left[li0..le], right[ri0..re]) == Lex(left[li..le], right[ri..re])
      decreases |left| - li
    {
      match (DigitAt(left, li), DigitAt(right, ri)) {
        case (true, true) =>
          assert left[li..le][1..] == left[li + 1..le] && right[ri..re][1..] == right[ri + 1..re];
          if left[li] != right[ri] {
            return CmpInt(left[li], right[ri]), li, ri;
          }
        case (true, false) => return Greater, li, ri;
        case (false, true) => return Less, li, ri;
        case (false, false) => return Equal, li, ri;
      }
      li, ri := li + 1, ri + 1;
    }
  }

  /** Compares two digit runs by length; the first differing digit breaks ties of length. */
  method CompareRight(left: seq<byte>, right: seq<byte>, li0: nat, ri0: nat)
    returns (ord: Ordering, li: nat, ri: nat)
    requires li0 <= |left| && ri0 <= |right|
    ensures var (le, re) := (DigitsEnd(left, li0), DigitsEnd(right, ri0));
      && ord == Then(CmpInt(le - li0, re - ri0), Lex(left[li0..le], right[ri0..re]))
      && (ord == Equal ==> li == le && ri == re)
  {
    li, ri := li0, ri0;
    var bias := Equal;
    ghost var le, re := DigitsEnd(left, li0), DigitsEnd(right, ri0);
    while true
      invariant li0 <= li <= le && ri0 <= ri <= re && li - li0 == ri - ri0
      invariant DigitsEnd(left, li) == le && DigitsEnd(right, ri) == re
      invariant Lex(left[li0..le], right[ri0..re]) == Then(bias, Lex(left[li..le], right[ri..re]))
      decreases |left| - li
    {
      match (DigitAt(left, li), DigitAt(right, ri)) {
        case (true, true) =>
          assert left[li..le][1..] == left[li + 1..le] && right[ri..re][1..] == right[ri + 1..re];
          if bias == Equal {
            bias := CmpInt(left[li], right[ri]);
          }
        case (true, false) => return Greater, li, ri;
        case (false, true) => return Less, li, ri;
        case (false, false) => return bias, li, ri;
      }
      li, ri := li + 1, ri + 1;
    }
  }

  /** The key order of two runs is what the code's choice between the two loops computes. */
  lemma {:induction false} RunOrder(ins: bool, x: seq<byte>, y: seq<byte>)
    requires x != [] && y != [] && IsDigit(x[0]) && IsDigit(y[0])
    ensures CmpToken(ins, Run(x), Run(y)) ==
            if x[0] == 48 || y[0] == 48 then Lex(x, y) else Then(CmpInt(|x|, |y|), Lex(x, y))
  {
    if x[0] == 48 && y[0] == 48 {
      LexCons(48, x, 48, y);
    } else if x[0] == 48 {
      LexCons(48, x, 49, [|y|] + y);
    } else if y[0] == 48 {
      LexCons(49, [|x|] + x, 48, y);
    } else {
      NonzeroRunOrder(ins, x, y);
    }
  }

  lemma {:induction false} RunAgainstByte(ins: bool, x: seq<byte>, b: byte)
    requires x != [] && IsDigit(x[0]) && !IsDigit(b)
    ensures CmpToken(ins, Run(x), Byte(b)) == CmpInt(x[0], if ins then Lower(b) else b) != Equal
    ensures CmpToken(ins, Byte(b), Run(x)) == CmpInt(if ins then Lower(b) else b, x[0]) != Equal
  {}

  lemma {:induction false} BytesOrder(ins: bool, b: byte, c: byte)
    ensures CmpToken(ins, Byte(b), Byte(c)) ==
            CmpInt(if ins then Lower(b) else b, if ins then Lower(c) else c)
  {
    var p, q := if ins then Lower(b) else b, if ins then Lower(c) else c;
    assert Key(ins, Byte(b)) == [p] + [] && Key(ins, Byte(c)) == [q] + [];
    LexCons(p, [], q, []);
  }

  lemma {:induction false} CmpTokensCons(ins: bool, x: Token, a: seq<Token>, y: Token, b: seq<Token>)
    ensures CmpTokens(ins, [x] + a, [y] + b) == Then(CmpToken(ins, x, y), CmpTokens(ins, a, b))
  {
    assert ([x] + a)[1..] == a && ([y] + b)[1..] == b;
  }

  /** The token at a position that is not white space, and where the next one is looked for. */
  function First(s: seq<byte>, i: nat): Token
    requires i < |s|
  {
    if IsDigit(s[i]) then Run(s[i..DigitsEnd(s, i)]) else Byte(s[i])
  }

  function Next(s: seq<byte>, i: nat): (j: nat)
    requires i < |s|
    ensures i < j <= |s|
  {
    if IsDigit(s[i]) then DigitsEnd(s, i) else i + 1
  }

  method SkipSpaces(s: seq<byte>, i0: nat) returns (i: nat)
    requires i0 <= |s|
    ensures i0 <= i <= |s| && (i < |s| ==> !IsSpace(s[i]))
    ensures Tokens(s, i) == Tokens(s, i0)
  {
    i := i0;
    while i < |s| && IsSpace(s[i])
      invariant i0 <= i <= |s| && Tokens(s, i) == Tokens(s, i0)
    {
      i := i + 1;
    }
  }

  /** One round of the main loop decides by the two first tokens or drops both. */
  lemma {:induction false} Round(ins: bool, left: seq<byte>, right: seq<byte>, li: nat, ri: nat)
    requires li < |left| && ri < |right| && !IsSpace(left[li]) && !IsSpace(right[ri])
    ensures CmpTokens(ins, Tokens(left, li), Tokens(right, ri)) ==
            Then(CmpToken(ins, First(left, li), First(right, ri)),
                 CmpTokens(ins, Tokens(left, Next(left, li)), Tokens(right, Next(right, ri))))
  {
    CmpTokensCons(ins, First(left, li), Tokens(left, Next(left, li)),
                  First(right, ri), Tokens(right, Next(right, ri)));
  }

  /** The body of the main loop at two positions that are not white space. */
  method CompareHeads(left: seq<byte>, right: seq<byte>, li0: nat, ri0: nat, insensitive: bool)
    returns (ord: Ordering, li: nat, ri: nat)
    requires li0 < |left| && ri0 < |right|
    ensures ord == CmpToken(insensitive, First(left, li0), First(right, ri0))
    ensures ord == Equal ==> li == Next(left, li0) && ri == Next(right, ri0)
  {
    li, ri := li0, ri0;
    var ll, rr := left[li], right[ri];
    ghost var x, y := left[li..DigitsEnd(left, li)], right[ri..DigitsEnd(right, ri)];
    if IsDigit(ll) && IsDigit(rr) {
      RunOrder(insensitive, x, y);
      if ll == 48 || rr == 48 {
        ord, li, ri := CompareLeft(left, right, li, ri);
      } else {
        ord, li, ri := CompareRight(left, right, li, ri);
      }
      return;
    }
    if IsDigit(ll) {
      RunAgainstByte(insensitive, x, rr);
    } else if IsDigit(rr) {
      RunAgainstByte(insensitive, y, ll);
    } else {
      BytesOrder(insensitive, ll, rr);
    }
    ord := if insensitive then CmpInt(Lower(ll), Lower(rr)) else CmpInt(ll, rr);
    li, ri := li + 1, ri + 1;
  }

  method NatSort(left: seq<byte>, right: seq<byte>, insensitive: bool) returns (ord: Ordering)
    ensures ord == NatCmp(insensitive, left, right)
  {
    var li: nat, ri: nat := 0, 0;
    while true
      invariant li <= |left| && ri <= |right|
      invariant NatCmp(insensitive, left, right) ==
                CmpTokens(insensitive, Tokens(left, li), Tokens(right, ri))
      decreases |left| - li
    {
      li := SkipSpaces(left, li);
      ri := SkipSpaces(right, ri);
      if li == |left| || ri == |right| {
        return if li < |left| then Greater else if ri < |right| then Less else Equal;
      }
      Round(insensitive, left, right, li, ri);
      ord, li, ri := CompareHeads(left, right, li, ri, insensitive);
      if ord != Equal { return; }
    }
  }
}
