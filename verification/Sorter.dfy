/** The file comparators of yazi-fs/src/sorter.rs and what sorting by them yields. */
module Sorter {
  import opened Ordering
  import NatSort
  import opened Wrappers

  type Name = seq<byte>

  /** `rest` stands for the change time, the mode and the link's own metadata, which take part in
      `Hits` only; `extra` for the access time, owner and device, which take part in nothing. */
  datatype File = File(key: Name, urn: Name, ext: Option<Name>, dir: bool, regular: bool, hidden: bool,
                       len: nat, mtime: Option<int>, btime: Option<int>, rest: int, extra: int)

  datatype SortBy = Unsorted | Mtime | Btime | Extension | Alphabetical | Natural | Size | Random | Custom

  datatype Fallback = ByName | ByNature

  datatype FilesSorter = FilesSorter(criterion: SortBy, sensitive: bool, reverse: bool, dirFirst: bool,
                                     translit: bool, fallback: Fallback)

  /** What a comparison looks up: directory sizes, ranks, and the transliteration table. */
  datatype Tables = Tables(sizes: map<Name, int>, ranks: map<Name, int>, latin: Name -> Name)

  function Fold(a: Name): Name { seq(|a|, i requires 0 <= i < |a| => NatSort.Lower(a[i])) }

  function Directed(reverse: bool, o: Ordering): Ordering { if reverse then Flip(o) else o }

  function CmpOption(a: Option<int>, b: Option<int>): Ordering {
    match (a, b)
    case (None, None) => Equal
    case (None, Some(_)) => Less
    case (Some(_), None) => Greater
    case (Some(x), Some(y)) => CmpInt(x, y)
  }

  function CmpOptionName(a: Option<Name>, b: Option<Name>): Ordering {
    match (a, b)
    case (None, None) => Equal
    case (None, Some(_)) => Less
    case (Some(_), None) => Greater
    case (Some(x), Some(y)) => Lex(x, y)
  }

  /** The loop of `cmp_insensitive`: the shorter length first, then the lengths. */
  method CmpInsensitive(reverse: bool, a: Name, b: Name) returns (ord: Ordering)
    ensures ord == Directed(reverse, Lex(Fold(a), Fold(b)))
  {
    var l := if |a| < |b| then |a| else |b|;
    var lhs, rhs := if reverse then b[..l] else a[..l], if reverse then a[..l] else b[..l];
    ghost var x, y := if reverse then Fold(b) else Fold(a), if reverse then Fold(a) else Fold(b);
    LexFlip(Fold(a), Fold(b));
    for i := 0 to l
      invariant Lex(x, y) == Lex(x[i..], y[i..])
    {
      assert x[i] == NatSort.Lower(lhs[i]) && y[i] == NatSort.Lower(rhs[i]);
      assert x[i..][1..] == x[i + 1..] && y[i..][1..] == y[i + 1..];
      var o := CmpInt(NatSort.Lower(lhs[i]), NatSort.Lower(rhs[i]));
      if o != Equal { return o; }
    }
    return if reverse then CmpInt(|b|, |a|) else CmpInt(|a|, |b|);
  }

  // --- The comparators

  function FileExt(a: File): Option<Name> { if a.regular then a.ext else None }

  function ExtBytes(a: File): Name {
    match FileExt(a) case None => [] case Some(e) => e
  }

  function SizeOf(t: Tables, a: File): int {
    if a.dir && a.key in t.sizes then t.sizes[a.key] else a.len
  }

  function RankOf(t: Tables, a: File): int { if a.key in t.ranks then t.ranks[a.key] else 0 }

  /** The criterion the user chose. Unsorted and Random promise no order: every pair ties. */
  function Primary(s: FilesSorter, t: Tables, a: File, b: File): Ordering {
    match s.criterion
    case Unsorted => Equal
    case Random => Equal
    case Mtime => Directed(s.reverse, CmpOption(a.mtime, b.mtime))
    case Btime => Directed(s.reverse, CmpOption(a.btime, b.btime))
    case Extension =>
      Directed(s.reverse, if s.sensitive then CmpOptionName(FileExt(a), FileExt(b))
                          else Lex(Fold(ExtBytes(a)), Fold(ExtBytes(b))))
    case Alphabetical =>
      Directed(s.reverse, if s.sensitive then Lex(a.urn, b.urn) else Lex(Fold(a.urn), Fold(b.urn)))
    case Natural =>
      Directed(s.reverse, if s.translit then NatSort.NatCmp(!s.sensitive, t.latin(a.urn), t.latin(b.urn))
                          else NatSort.NatCmp(!s.sensitive, a.urn, b.urn))
    case Size => Directed(s.reverse, CmpInt(SizeOf(t, a), SizeOf(t, b)))
    case Custom => Directed(s.reverse, CmpInt(RankOf(t, a), RankOf(t, b)))
  }

  function TieBreak(s: FilesSorter, a: File, b: File): Ordering {
    Directed(s.reverse, match s.fallback
                        case ByName => Lex(a.urn, b.urn)
                        case ByNature => NatSort.NatCmp(false, a.urn, b.urn))
  }

  function CmpBool(a: bool, b: bool): Ordering { CmpInt(if a then 1 else 0, if b then 1 else 0) }

  /** Directories first when asked for, whatever the direction; then the criterion; then the name. */
  function Compare(s: FilesSorter, t: Tables, a: File, b: File): Ordering {
    if s.criterion == Unsorted || s.criterion == Random then Equal
    else Then(if s.dirFirst then CmpBool(b.dir, a.dir) else Equal,
              Then(Primary(s, t, a, b), TieBreak(s, a, b)))
  }

  // --- Every comparator is a total preorder

  /** Lists ordered as options are: nothing first. */
  function OptionKey(a: Option<Name>): seq<int> {
    match a case None => [] case Some(n) => [0] + n
  }

  lemma {:induction false} OptionKeyOrder(a: Option<Name>, b: Option<Name>)
    ensures CmpOptionName(a, b) == Lex(OptionKey(a), OptionKey(b))
  {
    if a.Some? && b.Some? { LexCons(0, a.value, 0, b.value); }
  }

  /** Every criterion but the natural one is the order of a list computed from each file alone. */
  function CriterionKey(s: FilesSorter, t: Tables, a: File): seq<int> {
    match s.criterion
    case Mtime => if a.mtime.Some? then [a.mtime.value] else []
    case Btime => if a.btime.Some? then [a.btime.value] else []
    case Extension => if s.sensitive then OptionKey(FileExt(a)) else Fold(ExtBytes(a))
    case Alphabetical => if s.sensitive then a.urn else Fold(a.urn)
    case Size => [SizeOf(t, a)]
    case Custom => [RankOf(t, a)]
    case _ => []
  }

  lemma {:induction false} PrimaryByKey(s: FilesSorter, t: Tables, a: File, b: File)
    requires s.criterion != Natural
    ensures Primary(s, t, a, b) ==
            Directed(s.reverse, Lex(CriterionKey(s, t, a), CriterionKey(s, t, b)))
  {
    if s.criterion == Extension { OptionKeyOrder(FileExt(a), FileExt(b)); }
  }

  lemma {:induction false} DirectedLexChain(r: bool, a: seq<int>, b: seq<int>, c: seq<int>)
    ensures Chain(Directed(r, Lex(a, b)), Directed(r, Lex(b, c)), Directed(r, Lex(a, c)))
    ensures Directed(r, Lex(b, a)) == Flip(Directed(r, Lex(a, b)))
  {
    LexChain(a, b, c);
    LexChain(c, b, a);
    LexFlip(a, b);
    LexFlip(b, c);
    LexFlip(a, c);
  }

  lemma {:induction false} DirectedNatChain(r: bool, ins: bool, a: Name, b: Name, c: Name)
    ensures Chain(Directed(r, NatSort.NatCmp(ins, a, b)), Directed(r, NatSort.NatCmp(ins, b, c)),
                  Directed(r, NatSort.NatCmp(ins, a, c)))
    ensures Directed(r, NatSort.NatCmp(ins, b, a)) == Flip(Directed(r, NatSort.NatCmp(ins, a, b)))
  {
    NatSort.NatCmpIsTotalPreorder(ins, a, b, c);
    NatSort.NatCmpIsTotalPreorder(ins, c, b, a);
    NatSort.NatCmpIsTotalPreorder(ins, a, c, b);
  }

  lemma {:induction false} PrimaryChain(s: FilesSorter, t: Tables, a: File, b: File, c: File)
    ensures Chain(Primary(s, t, a, b), Primary(s, t, b, c), Primary(s, t, a, c))
    ensures Primary(s, t, b, a) == Flip(Primary(s, t, a, b))
  {
    if s.criterion == Natural {
      if s.translit {
        DirectedNatChain(s.reverse, !s.sensitive, t.latin(a.urn), t.latin(b.urn), t.latin(c.urn));
      } else {
        DirectedNatChain(s.reverse, !s.sensitive, a.urn, b.urn, c.urn);
      }
    } else {
      PrimaryByKey(s, t, a, b);
      PrimaryByKey(s, t, b, a);
      PrimaryByKey(s, t, b, c);
      PrimaryByKey(s, t, a, c);
      DirectedLexChain(s.reverse, CriterionKey(s, t, a), CriterionKey(s, t, b), CriterionKey(s, t, c));
    }
  }

  lemma {:induction false} TieBreakChain(s: FilesSorter, a: File, b: File, c: File)
    ensures Chain(TieBreak(s, a, b), TieBreak(s, b, c), TieBreak(s, a, c))
    ensures TieBreak(s, b, a) == Flip(TieBreak(s, a, b))
  {
    if s.fallback == ByName {
      DirectedLexChain(s.reverse, a.urn, b.urn, c.urn);
    } else {
      DirectedNatChain(s.reverse, false, a.urn, b.urn, c.urn);
    }
  }

  /** What `sort_unstable_by` needs of a comparator, for every criterion and every setting. */
  lemma {:induction false} CompareIsTotalPreorder(s: FilesSorter, t: Tables, a: File, b: File, c: File)
    ensures Compare(s, t, a, a) == Equal
    ensures Compare(s, t, b, a) == Flip(Compare(s, t, a, b))
    ensures Chain(Compare(s, t, a, b), Compare(s, t, b, c), Compare(s, t, a, c))
  {
    PrimaryChain(s, t, a, b, c);
    PrimaryChain(s, t, a, a, a);
    TieBreakChain(s, a, b, c);
    TieBreakChain(s, a, a, a);
    ThenChain(Primary(s, t, a, b), Primary(s, t, b, c), Primary(s, t, a, c),
              TieBreak(s, a, b), TieBreak(s, b, c), TieBreak(s, a, c));
  }

  /** With names as the tie-break, only files of the same name tie: for distinct names the order is
      strict. */
  lemma {:induction false} NamesBreakAllTies(s: FilesSorter, t: Tables, a: File, b: File)
    requires s.criterion != Unsorted && s.criterion != Random && s.fallback == ByName
    requires Compare(s, t, a, b) == Equal
    ensures a.urn == b.urn
  {
    LexEqual(a.urn, b.urn);
  }

  // --- Sorted lists

  ghost predicate Sorted(s: FilesSorter, t: Tables, fs: seq<File>) {
    forall i, j :: 0 <= i < j < |fs| ==> Compare(s, t, fs[i], fs[j]) != Greater
  }

  ghost predicate DistinctNames(fs: seq<File>) {
    forall i, j :: 0 <= i < j < |fs| ==> fs[i].urn != fs[j].urn
  }

  lemma {:induction false} MultisetUncons(x: seq<File>)
    requires x != []
    ensures multiset(x) == multiset{x[0]} + multiset(x[1..])
  {
    assert x == [x[0]] + x[1..];
  }

  lemma {:induction false} SameHead(s: FilesSorter, t: Tables, x: seq<File>, y: seq<File>)
    requires s.criterion != Unsorted && s.criterion != Random && s.fallback == ByName
    requires x != [] && y != [] && x[0] in multiset(y) && y[0] in multiset(x)
    requires Sorted(s, t, x) && Sorted(s, t, y) && DistinctNames(x)
    ensures x[0] == y[0]
  {
    var i :| 0 <= i < |y| && y[i] == x[0];
    var j :| 0 <= j < |x| && x[j] == y[0];
    if i != 0 && j != 0 {
      CompareIsTotalPreorder(s, t, x[0], y[0], x[0]);
      NamesBreakAllTies(s, t, x[0], y[0]);
    }
  }

  lemma {:induction false} SortedTail(s: FilesSorter, t: Tables, x: seq<File>, y: seq<File>)
    requires x != [] && y != [] && x[0] == y[0] && multiset(x) == multiset(y)
    requires Sorted(s, t, x) && Sorted(s, t, y) && DistinctNames(x)
    ensures Sorted(s, t, x[1..]) && Sorted(s, t, y[1..]) && DistinctNames(x[1..])
    ensures multiset(x[1..]) == multiset(y[1..])
  {
    MultisetUncons(x);
    MultisetUncons(y);
    assert multiset(x[1..]) == multiset(x) - multiset{x[0]};
    assert multiset(y[1..]) == multiset(y) - multiset{y[0]};
  }

  /** The sort has one possible result: a multiset of files with distinct names has exactly one sorted
      arrangement when names break ties. */
  lemma {:induction false} SortedIsUnique(s: FilesSorter, t: Tables, x: seq<File>, y: seq<File>)
    requires s.criterion != Unsorted && s.criterion != Random && s.fallback == ByName
    requires multiset(x) == multiset(y) && Sorted(s, t, x) && Sorted(s, t, y) && DistinctNames(x)
    ensures x == y
  {
    assert |multiset(x)| == |x| && |multiset(y)| == |y|;
    if x != [] {
      SameHead(s, t, x, y);
      SortedTail(s, t, x, y);
      SortedIsUnique(s, t, x[1..], y[1..]);
      assert x == [x[0]] + x[1..] && y == [y[0]] + y[1..];
    }
  }

  lemma {:induction false} InsertKeepsSorted(s: FilesSorter, t: Tables, fs: seq<File>, i: nat, f: File)
    requires i <= |fs| && Sorted(s, t, fs)
    requires forall k :: 0 <= k < i ==> Compare(s, t, fs[k], f) != Greater
    requires i < |fs| ==> Compare(s, t, f, fs[i]) != Greater
    ensures Sorted(s, t, fs[..i] + [f] + fs[i..])
  {
    forall k | i <= k < |fs| ensures Compare(s, t, f, fs[k]) != Greater {
      CompareIsTotalPreorder(s, t, f, fs[i], fs[k]);
      CompareIsTotalPreorder(s, t, fs[i], fs[i], fs[i]);
    }
  }

  method Insert(s: FilesSorter, t: Tables, fs: seq<File>, f: File) returns (r: seq<File>)
    requires Sorted(s, t, fs)
    ensures Sorted(s, t, r) && multiset(r) == multiset(fs) + multiset{f}
  {
    var i := |fs|;
    while i > 0 && Compare(s, t, fs[i - 1], f) == Greater
      invariant 0 <= i <= |fs|
      invariant i < |fs| ==> Compare(s, t, fs[i], f) == Greater
    {
      i := i - 1;
    }
    if i < |fs| { CompareIsTotalPreorder(s, t, fs[i], f, f); }
    forall k | 0 <= k < i ensures Compare(s, t, fs[k], f) != Greater {
      CompareIsTotalPreorder(s, t, fs[k], fs[i - 1], f);
      CompareIsTotalPreorder(s, t, fs[k], fs[k], f);
    }
    InsertKeepsSorted(s, t, fs, i, f);
    assert fs == fs[..i] + fs[i..];
    r := fs[..i] + [f] + fs[i..];
  }

  /** Stands for the library's sort: some sorted rearrangement, and no change for Unsorted. Random is a
      shuffle; of it only the rearrangement is promised. */
  method Sort(s: FilesSorter, t: Tables, items: seq<File>) returns (r: seq<File>)
    ensures multiset(r) == multiset(items)
    ensures Sorted(s, t, r)
    ensures s.criterion == Unsorted ==> r == items
  {
    if s.criterion == Unsorted || s.criterion == Random { return items; }
    r := [];
    for n := 0 to |items|
      invariant multiset(r) == multiset(items[..n]) && Sorted(s, t, r)
    {
      assert items[..n + 1] == items[..n] + [items[n]];
      r := Insert(s, t, r, items[n]);
    }
    assert items[..|items|] == items;
  }

  // --- Replacing a file by a fresh reading of it

  /** The cheap test of whether a file looks unchanged. */
  predicate Hits(a: File, b: File) {
    a.len == b.len && a.mtime == b.mtime && a.btime == b.btime && a.dir == b.dir &&
    a.regular == b.regular && a.hidden == b.hidden && a.rest == b.rest
  }

  /** Two readings under one key agree on everything derived from the path. */
  ghost predicate SamePath(a: File, b: File) {
    a.key == b.key ==> a.urn == b.urn && a.ext == b.ext
  }

  /** A reading that hits under the same key stands exactly where the old one stood. */
  lemma {:induction false} HitsIsOrderEquivalent(s: FilesSorter, t: Tables, a: File, b: File, x: File)
    requires Hits(a, b) && a.key == b.key && SamePath(a, b)
    ensures Compare(s, t, a, x) == Compare(s, t, b, x)
    ensures Compare(s, t, x, a) == Compare(s, t, x, b)
  {
    if s.criterion != Natural {
      PrimaryByKey(s, t, a, x);
      PrimaryByKey(s, t, b, x);
    }
    assert Primary(s, t, a, x) == Primary(s, t, b, x);
    CompareIsTotalPreorder(s, t, a, x, x);
    CompareIsTotalPreorder(s, t, b, x, x);
  }
}
