/** Three-way comparison results, lexicographic order over sequences, and the law that
    a comparator must obey for a sort to have a meaning. */
module Ordering {

  type byte = x: int | 0 <= x < 256

  datatype Ordering = Less | Equal | Greater

  function Flip(o: Ordering): Ordering {
    match o
    case Less => Greater
    case Equal => Equal
    case Greater => Less
  }

  /** The second criterion decides only when the first one ties. */
  function Then(o: Ordering, p: Ordering): Ordering {
    if o == Equal then p else o
  }

  function CmpInt(a: int, b: int): Ordering {
    if a < b then Less else if a == b then Equal else Greater
  }

  /** Lexicographic order on integer sequences; a proper prefix comes first. */
  function Lex(a: seq<int>, b: seq<int>): Ordering {
    if a == [] then (if b == [] then Equal else Less)
    else if b == [] then Greater
    else Then(CmpInt(a[0], b[0]), Lex(a[1..], b[1..]))
  }

  /** What a comparison of a with b, b with c and a with c must satisfy for `<=` to be
      transitive and for ties to be an equivalence. */
  ghost predicate Chain(ab: Ordering, bc: Ordering, ac: Ordering) {
    ab != Greater && bc != Greater ==>
      ac != Greater && (ac == Equal <==> ab == Equal && bc == Equal)
  }

  lemma {:induction false} ThenChain(ab: Ordering, bc: Ordering, ac: Ordering, ab': Ordering, bc': Ordering,
      ac': Ordering)
    requires Chain(ab, bc, ac) && Chain(ab', bc', ac')
    ensures Chain(Then(ab, ab'), Then(bc, bc'), Then(ac, ac'))
  {}

  lemma {:induction false} LexFlip(a: seq<int>, b: seq<int>)
    ensures Lex(b, a) == Flip(Lex(a, b))
  {
    if a != [] && b != [] {
      LexFlip(a[1..], b[1..]);
    }
  }

  lemma {:induction false} LexEqual(a: seq<int>, b: seq<int>)
    ensures Lex(a, b) == Equal <==> a == b
  {
    if a != [] && b != [] {
      LexEqual(a[1..], b[1..]);
      assert a == [a[0]] + a[1..] && b == [b[0]] + b[1..];
    }
  }

  lemma {:induction false} LexChain(a: seq<int>, b: seq<int>, c: seq<int>)
    ensures Chain(Lex(a, b), Lex(b, c), Lex(a, c))
  {
    if a != [] && b != [] && c != [] {
      LexChain(a[1..], b[1..], c[1..]);
    }
  }

  lemma {:induction false} LexCons(p: int, a: seq<int>, q: int, b: seq<int>)
    ensures Lex([p] + a, [q] + b) == Then(CmpInt(p, q), Lex(a, b))
  {
    assert ([p] + a)[1..] == a && ([q] + b)[1..] == b;
  }

  /** At equal lengths the last position decides only when everything before it ties. */
  lemma {:induction false} LexSnoc(a: seq<int>, p: int, b: seq<int>, q: int)
    requires |a| == |b|
    ensures Lex(a + [p], b + [q]) == Then(Lex(a, b), CmpInt(p, q))
  {
    if a != [] {
      LexSnoc(a[1..], p, b[1..], q);
      assert (a + [p])[1..] == a[1..] + [p] && (b + [q])[1..] == b[1..] + [q];
    }
  }
}
