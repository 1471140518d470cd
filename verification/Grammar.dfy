/** Exactly which texts the condition parser of yazi-shared/src/condition.rs accepts: a grammar that every text
    without an open parenthesis has a derivation in, and what each part does to the operands at hand. */
module Grammar {
  import opened Condition
  import opened Wrappers

  // --- The grammar

  /** A row of terms, groups and `!`, the last one last. Nothing need stand between two terms. */
  datatype Row = Empty | Snoc(init: Row, last: Item)

  datatype Item = Word(s: string) | Bang | Group(body: Ors)

  datatype Ands = OneRow(x: Row) | AndRow(l: Ands, x: Row)

  datatype Ors = OneAnds(a: Ands) | OrAnds(l: Ors, a: Ands)

  /** Lines are separated by closing parentheses that close nothing. */
  datatype Lines = OneLine(l: Ors) | Close(t: Lines, l: Ors)

  function RowToks(x: Row): seq<Op> {
    match x
    case Empty => []
    case Snoc(i, last) => RowToks(i) + ItemToks(last)
  }

  function ItemToks(item: Item): seq<Op> {
    match item
    case Word(s) => [Term(s)]
    case Bang => [Not]
    case Group(l) => [LeftParen] + OrsToks(l) + [RightParen]
  }

  function AndsToks(a: Ands): seq<Op> {
    match a
    case OneRow(x) => RowToks(x)
    case AndRow(l, x) => AndsToks(l) + [And] + RowToks(x)
  }

  function OrsToks(l: Ors): seq<Op> {
    match l
    case OneAnds(a) => AndsToks(a)
    case OrAnds(m, a) => OrsToks(m) + [Or] + AndsToks(a)
  }

  function LinesToks(t: Lines): seq<Op> {
    match t
    case OneLine(l) => OrsToks(l)
    case Close(u, l) => LinesToks(u) + [RightParen] + OrsToks(l)
  }

  // --- What each part does to the operands

  /** It takes `needs` operands off the stack and then leaves `gives`. */
  datatype Effect = Effect(needs: nat, gives: nat)

  function Then(e: Effect, f: Effect): Effect {
    if e.gives >= f.needs then Effect(e.needs, e.gives - f.needs + f.gives)
    else Effect(e.needs + f.needs - e.gives, f.gives)
  }

  /** The terms and groups of a row come in order, its `!` after them all: to the one operand on top. */
  function RowEffect(x: Row): Effect { if HasBang(x) then Then(PlainEffect(x), Effect(1, 1)) else PlainEffect(x) }

  function HasBang(x: Row): bool { x.Snoc? && (x.last.Bang? || HasBang(x.init)) }

  function PlainEffect(x: Row): Effect
    decreases x, 0
  {
    match x
    case Empty => Effect(0, 0)
    case Snoc(i, last) => Then(PlainEffect(i), ItemEffect(last))
  }

  function ItemEffect(item: Item): Effect {
    match item
    case Word(_) => Effect(0, 1)
    case Bang => Effect(0, 0)
    case Group(l) => OrsEffect(l)
  }

  function AndsEffect(a: Ands): Effect {
    match a
    case OneRow(x) => RowEffect(x)
    case AndRow(l, x) => Then(Then(AndsEffect(l), RowEffect(x)), Effect(2, 1))
  }

  function OrsEffect(l: Ors): Effect {
    match l
    case OneAnds(a) => AndsEffect(a)
    case OrAnds(m, a) => Then(Then(OrsEffect(m), AndsEffect(a)), Effect(2, 1))
  }

  function LinesEffect(t: Lines): Effect {
    match t
    case OneLine(l) => OrsEffect(l)
    case Close(u, l) => Then(LinesEffect(u), OrsEffect(l))
  }

  // --- What the compiler makes of each part

  function Nots(n: nat): seq<Op> { if n == 0 then [] else [Not] + Nots(n - 1) }

  function Bangs(x: Row): nat { if x.Empty? then 0 else Bangs(x.init) + if x.last.Bang? then 1 else 0 }

  function Plain(x: Row): seq<Op>
    decreases x, 0
  {
    match x
    case Empty => []
    case Snoc(i, last) => Plain(i) + ItemProgram(last)
  }

  function ItemProgram(item: Item): seq<Op> {
    match item
    case Word(s) => [Term(s)]
    case Bang => []
    case Group(l) => OrsProgram(l)
  }

  function RowProgram(x: Row): seq<Op> { Plain(x) + Nots(Bangs(x)) }

  function AndsProgram(a: Ands): seq<Op> {
    match a
    case OneRow(x) => RowProgram(x)
    case AndRow(l, x) => AndsProgram(l) + RowProgram(x) + [And]
  }

  function OrsProgram(l: Ors): seq<Op> {
    match l
    case OneAnds(a) => AndsProgram(a)
    case OrAnds(m, a) => OrsProgram(m) + AndsProgram(a) + [Or]
  }

  function LinesProgram(t: Lines): seq<Op> {
    match t
    case OneLine(l) => OrsProgram(l)
    case Close(u, l) => LinesProgram(u) + OrsProgram(l)
  }

  lemma {:induction false} NotsArePending(n: nat)
    ensures Pending(Nots(n), 3)
  {
    if n > 0 { NotsArePending(n - 1); }
  }

  /** A `!` makes nothing on the stack yield. */
  lemma {:induction false} FeedRow(x: Row, k: seq<Op>, o: seq<Op>)
    ensures Feed(State(k, o), RowToks(x)) == State(Nots(Bangs(x)) + k, o + Plain(x))
  {
    match x {
      case Empty =>
        assert [] + k == k && o + [] == o;
      case Snoc(i, last) =>
        FeedAppend(State(k, o), RowToks(i), ItemToks(last));
        FeedRow(i, k, o);
        FeedItem(last, Nots(Bangs(i)) + k, o + Plain(i));
        assert o + Plain(i) + ItemProgram(last) == o + Plain(x);
        if last.Bang? { assert [Not] + (Nots(Bangs(i)) + k) == Nots(Bangs(x)) + k; }
    }
  }

  lemma {:induction false} FeedItem(item: Item, k: seq<Op>, o: seq<Op>)
    ensures Feed(State(k, o), ItemToks(item)) == State(if item.Bang? then [Not] + k else k, o + ItemProgram(item))
  {
    match item {
      case Word(s) => FeedOne(State(k, o), Term(s));
      case Bang =>
        FeedOne(State(k, o), Not);
        assert Unwind(State(k, o), Not) == State(k, o) && o + [] == o;
      case Group(l) =>
        FeedGroup(State(k, o), LeftParen, OrsToks(l), RightParen);
        var p, c := FeedOrs(l, [LeftParen] + k, o);
        ClosePending(p, k, o + c);
        assert o + c + p == o + OrsProgram(l);
    }
  }

  lemma {:induction false} FeedGroup(st: State, a: Op, toks: seq<Op>, b: Op)
    ensures Feed(st, [a] + toks + [b]) == Feed1(Feed(Feed1(st, a), toks), b)
  {
    FeedAppend(st, [a] + toks, [b]);
    FeedAppend(st, [a], toks);
    FeedOne(st, a);
    FeedOne(Feed(st, [a] + toks), b);
  }

  lemma {:induction false} FeedAnds(a: Ands, k: seq<Op>, o: seq<Op>) returns (p: seq<Op>, c: seq<Op>)
    requires Below(k, 2)
    ensures Feed(State(k, o), AndsToks(a)) == State(p + k, o + c) && Pending(p, 2) && c + p == AndsProgram(a)
  {
    match a {
      case OneRow(x) =>
        FeedRow(x, k, o);
        NotsArePending(Bangs(x));
        p, c := Nots(Bangs(x)), Plain(x);
      case AndRow(l, x) =>
        var q, d := FeedAnds(l, k, o);
        FeedThrough(State(k, o), AndsToks(l), And, RowToks(x));
        UnwindPending(q, k, o + d, And);
        FeedRow(x, [And] + k, o + d + q);
        NotsArePending(Bangs(x));
        p, c := Nots(Bangs(x)) + [And], d + q + Plain(x);
        Rejoin(d, q, Plain(x), Nots(Bangs(x)), And, k, o);
    }
  }

  lemma {:induction false} FeedOrs(l: Ors, k: seq<Op>, o: seq<Op>) returns (p: seq<Op>, c: seq<Op>)
    requires Below(k, 1)
    ensures Feed(State(k, o), OrsToks(l)) == State(p + k, o + c) && Pending(p, 1) && c + p == OrsProgram(l)
  {
    match l {
      case OneAnds(a) => p, c := FeedAnds(a, k, o);
      case OrAnds(m, a) =>
        var q, d := FeedOrs(m, k, o);
        FeedThrough(State(k, o), OrsToks(m), Or, AndsToks(a));
        UnwindPending(q, k, o + d, Or);
        var q', d' := FeedAnds(a, [Or] + k, o + d + q);
        p, c := q' + [Or], d + q + d';
        Rejoin(d, q, d', q', Or, k, o);
    }
  }

  /** A parenthesis that closes nothing drains the stack. */
  lemma {:induction false} CloseDrains(p: seq<Op>, o: seq<Op>)
    requires Pending(p, 1)
    ensures CloseParen(State(p, o)) == State([], o + p)
    decreases |p|
  {
    if p == [] {
      assert o + p == o;
    } else {
      assert o + [p[0]] + p[1..] == o + p;
      CloseDrains(p[1..], o + [p[0]]);
    }
  }

  lemma {:induction false} FeedLines(t: Lines) returns (p: seq<Op>, c: seq<Op>)
    ensures Feed(State([], []), LinesToks(t)) == State(p, c) && Pending(p, 1) && c + p == LinesProgram(t)
  {
    match t {
      case OneLine(l) =>
        p, c := FeedOrs(l, [], []);
        assert p + [] == p && [] + c == c;
      case Close(u, l) =>
        var q, d := FeedLines(u);
        FeedThrough(State([], []), LinesToks(u), RightParen, OrsToks(l));
        CloseDrains(q, d);
        var d';
        p, d' := FeedOrs(l, [], d + q);
        c := d + q + d';
        assert p + [] == p && c + p == d + q + (d' + p);
    }
  }

  // --- Counting operands

  function AfterEffect(e: Effect, n: nat): Option<nat> { if n >= e.needs then Some(n - e.needs + e.gives) else None }

  ghost predicate Does(ops: seq<Op>, e: Effect) { forall n: nat :: Left(ops, n) == AfterEffect(e, n) }

  lemma {:induction false} LeftAppend(a: seq<Op>, b: seq<Op>, n: nat)
    ensures Left(a + b, n) == match Left(a, n) case None => None case Some(m) => Left(b, m)
    decreases |a|
  {
    if a == [] {
      assert a + b == b;
    } else {
      assert (a + b)[1..] == a[1..] + b;
      if Enough(a[0], n) { LeftAppend(a[1..], b, if a[0].Term? then n + 1 else if a[0] == Not then n else n - 1); }
    }
  }

  lemma {:induction false} DoesBoth(a: seq<Op>, e: Effect, b: seq<Op>, f: Effect)
    requires Does(a, e) && Does(b, f)
    ensures Does(a + b, Then(e, f))
  {
    forall n: nat ensures Left(a + b, n) == AfterEffect(Then(e, f), n) { LeftAppend(a, b, n); }
  }

  lemma {:induction false} OneDoes(op: Op)
    ensures op == And || op == Or ==> Does([op], Effect(2, 1))
    ensures op == Not ==> Does([op], Effect(1, 1))
    ensures op.Term? ==> Does([op], Effect(0, 1))
    ensures Does([], Effect(0, 0))
  {
    assert [op][1..] == [];
  }

  lemma {:induction false} NotsDo(n: nat)
    ensures Does(Nots(n), if n > 0 then Effect(1, 1) else Effect(0, 0))
  {
    OneDoes(Not);
    if n > 0 {
      NotsDo(n - 1);
      DoesBoth([Not], Effect(1, 1), Nots(n - 1), if n > 1 then Effect(1, 1) else Effect(0, 0));
    }
  }

  lemma {:induction false} BangsCount(x: Row)
    ensures Bangs(x) > 0 <==> HasBang(x)
  {
    if x.Snoc? { BangsCount(x.init); }
  }

  lemma {:induction false} NothingMore(e: Effect)
    ensures Then(e, Effect(0, 0)) == e
  {}

  lemma {:induction false} PlainDoes(x: Row)
    ensures Does(Plain(x), PlainEffect(x))
    decreases x, 0
  {
    match x {
      case Empty => OneDoes(Not);
      case Snoc(i, last) =>
        PlainDoes(i);
        ItemDoes(last);
        DoesBoth(Plain(i), PlainEffect(i), ItemProgram(last), ItemEffect(last));
    }
  }

  lemma {:induction false} ItemDoes(item: Item)
    ensures Does(ItemProgram(item), ItemEffect(item))
  {
    match item {
      case Word(s) => OneDoes(Term(s));
      case Bang => OneDoes(Not);
      case Group(l) => OrsDo(l);
    }
  }

  lemma {:induction false} RowDoes(x: Row)
    ensures Does(RowProgram(x), RowEffect(x))
  {
    PlainDoes(x);
    NotsDo(Bangs(x));
    BangsCount(x);
    NothingMore(PlainEffect(x));
    DoesBoth(Plain(x), PlainEffect(x), Nots(Bangs(x)), if HasBang(x) then Effect(1, 1) else Effect(0, 0));
  }

  lemma {:induction false} JoinDoes(a: seq<Op>, e: Effect, b: seq<Op>, f: Effect, op: Op)
    requires Does(a, e) && Does(b, f) && (op == And || op == Or)
    ensures Does(a + b + [op], Then(Then(e, f), Effect(2, 1)))
  {
    OneDoes(op);
    DoesBoth(a, e, b, f);
    DoesBoth(a + b, Then(e, f), [op], Effect(2, 1));
  }

  lemma {:induction false} AndsDo(a: Ands)
    ensures Does(AndsProgram(a), AndsEffect(a))
  {
    RowDoes(a.x);
    if a.AndRow? {
      AndsDo(a.l);
      JoinDoes(AndsProgram(a.l), AndsEffect(a.l), RowProgram(a.x), RowEffect(a.x), And);
    }
  }

  lemma {:induction false} OrsDo(l: Ors)
    ensures Does(OrsProgram(l), OrsEffect(l))
  {
    AndsDo(l.a);
    if l.OrAnds? {
      OrsDo(l.l);
      JoinDoes(OrsProgram(l.l), OrsEffect(l.l), AndsProgram(l.a), AndsEffect(l.a), Or);
    }
  }

  lemma {:induction false} LinesDo(t: Lines)
    ensures Does(LinesProgram(t), LinesEffect(t))
  {
    OrsDo(t.l);
    if t.Close? {
      LinesDo(t.t);
      DoesBoth(LinesProgram(t.t), LinesEffect(t.t), OrsProgram(t.l), OrsEffect(t.l));
    }
  }

  /** The compiler puts out the program of the derivation. */
  lemma {:induction false} CompileFollowsGrammar(t: Lines)
    ensures Compile(LinesToks(t)) == LinesProgram(t)
  {
    var p, c := FeedLines(t);
  }

  /** A text that the grammar derives is accepted exactly when it needs no operand and leaves one. */
  lemma {:induction false} LinesAreAcceptedIff(t: Lines)
    ensures TreeOf(Compile(LinesToks(t))).Some? <==> LinesEffect(t) == Effect(0, 1)
  {
    CompileFollowsGrammar(t);
    LinesDo(t);
    AcceptedIffItCounts(LinesProgram(t));
    assert Left(LinesProgram(t), 0) == AfterEffect(LinesEffect(t), 0);
  }

  lemma {:induction false} WordAtEnd(x: Row, s: string)
    requires Bangs(x) == 0
    ensures RowToks(Snoc(x, Word(s))) == RowToks(x) + [Term(s)] && Bangs(Snoc(x, Word(s))) == 0
    ensures RowProgram(Snoc(x, Word(s))) == RowProgram(x) + [Term(s)]
  {
    assert Plain(Snoc(x, Word(s))) == Plain(x) + [Term(s)];
  }

  lemma {:induction false} TwoRows(x: Row, y: Row)
    ensures Compile(RowToks(x) + [And] + RowToks(y)) == RowProgram(x) + RowProgram(y) + [And]
  {
    var l := OneAnds(AndRow(OneRow(x), y));
    assert AndsToks(l.a) == RowToks(x) + [And] + RowToks(y) && OrsToks(l) == AndsToks(l.a);
    assert AndsProgram(l.a) == RowProgram(x) + RowProgram(y) + [And] && OrsProgram(l) == AndsProgram(l.a);
    CompileFollowsGrammar(OneLine(l));
  }

  /** So an operator may stand after or before its operands as well as between them. */
  lemma {:induction false} OperatorsStandAnywhere(a: string, b: string)
    ensures Compile([Term(a), Term(b), And]) == Compile([And, Term(a), Term(b)]) == Compile([Term(a), And, Term(b)]) ==
            Postfix(Both(Leaf(a), Leaf(b)))
  {
    var one, two := Snoc(Empty, Word(a)), Snoc(Empty, Word(b));
    var both := Snoc(one, Word(b));
    WordAtEnd(Empty, a);
    WordAtEnd(Empty, b);
    WordAtEnd(one, b);
    TwoRows(both, Empty);
    TwoRows(Empty, both);
    TwoRows(one, two);
    assert RowToks(both) + [And] + RowToks(Empty) == [Term(a), Term(b), And];
    assert RowToks(Empty) + [And] + RowToks(both) == [And, Term(a), Term(b)];
    assert RowToks(one) + [And] + RowToks(two) == [Term(a), And, Term(b)];
  }

  // --- Every text is derived, unless a parenthesis stays open

  /** What has been read: lines, or a group inside something that stays open. */
  datatype Read = Whole(t: Lines) | Inside(outer: Read, l: Ors)

  function ReadToks(r: Read): seq<Op> {
    match r
    case Whole(t) => LinesToks(t)
    case Inside(outer, l) => ReadToks(outer) + [LeftParen] + OrsToks(l)
  }

  const NOTHING := OneAnds(OneRow(Empty))

  function AndsWith(a: Ands, item: Item): (b: Ands)
    ensures AndsToks(b) == AndsToks(a) + ItemToks(item)
  {
    match a
    case OneRow(x) => OneRow(Snoc(x, item))
    case AndRow(l, x) =>
      assert AndsToks(l) + [And] + (RowToks(x) + ItemToks(item)) == AndsToks(a) + ItemToks(item);
      AndRow(l, Snoc(x, item))
  }

  function OrsWith(l: Ors, item: Item): (m: Ors)
    ensures OrsToks(m) == OrsToks(l) + ItemToks(item)
  {
    match l
    case OneAnds(a) => OneAnds(AndsWith(a, item))
    case OrAnds(k, a) =>
      assert OrsToks(k) + [Or] + (AndsToks(a) + ItemToks(item)) == OrsToks(l) + ItemToks(item);
      OrAnds(k, AndsWith(a, item))
  }

  function OrsBy(l: Ors, tok: Op): (m: Ors)
    requires tok.Term? || tok == Not || tok == And || tok == Or
    ensures OrsToks(m) == OrsToks(l) + [tok]
  {
    if tok.Term? then OrsWith(l, Word(tok.s))
    else if tok == Not then OrsWith(l, Bang)
    else if tok == Or then OrAnds(l, OneRow(Empty))
    else
      assert AndsToks(AndRow(l.a, Empty)) == AndsToks(l.a) + [And];
      if l.OneAnds? then OneAnds(AndRow(l.a, Empty))
      else
        assert OrsToks(l.l) + [Or] + (AndsToks(l.a) + [And]) == OrsToks(l) + [And];
        OrAnds(l.l, AndRow(l.a, Empty))
  }

  function Put(r: Read, l: Ors): Read {
    match r case Whole(t) => Whole(t.(l := l)) case Inside(outer, _) => Inside(outer, l)
  }

  function Line(r: Read): Ors { match r case Whole(t) => t.l case Inside(_, l) => l }

  lemma {:induction false} PutToks(r: Read, l: Ors, more: seq<Op>)
    requires OrsToks(l) == OrsToks(Line(r)) + more
    ensures ReadToks(Put(r, l)) == ReadToks(r) + more
  {}

  lemma {:induction false} ReadOne(r: Read, tok: Op) returns (q: Read)
    requires Writable(tok)
    ensures ReadToks(q) == ReadToks(r) + [tok]
  {
    if tok == LeftParen {
      q := Inside(r, NOTHING);
      assert OrsToks(NOTHING) == [];
    } else if tok == RightParen && r.Whole? {
      q := Whole(Close(r.t, NOTHING));
      assert OrsToks(NOTHING) == [];
    } else if tok == RightParen {
      var l := OrsWith(Line(r.outer), Group(r.l));
      q := Put(r.outer, l);
      PutToks(r.outer, l, ItemToks(Group(r.l)));
      assert ReadToks(r.outer) + ([LeftParen] + OrsToks(r.l) + [RightParen]) == ReadToks(r) + [tok];
    } else {
      q := Put(r, OrsBy(Line(r), tok));
      PutToks(r, OrsBy(Line(r), tok), [tok]);
    }
  }

  lemma {:induction false} ReadAll(toks: seq<Op>) returns (r: Read)
    requires forall i :: 0 <= i < |toks| ==> Writable(toks[i])
    ensures ReadToks(r) == toks
    decreases |toks|
  {
    if toks == [] {
      r := Whole(OneLine(NOTHING));
    } else {
      var n := |toks| - 1;
      var q := ReadAll(toks[..n]);
      r := ReadOne(q, toks[n]);
      assert toks == toks[..n] + [toks[n]];
    }
  }

  /** An open parenthesis stays on the stack, under what came after it. */
  lemma {:induction false} OpenStays(r: Read)
    requires r.Inside?
    ensures LeftParen in Feed(State([], []), ReadToks(r)).stack
  {
    var before := Feed(State([], []), ReadToks(r.outer));
    FeedThrough(State([], []), ReadToks(r.outer), LeftParen, OrsToks(r.l));
    var p, c := FeedOrs(r.l, [LeftParen] + before.stack, before.output);
    assert (p + ([LeftParen] + before.stack))[|p|] == LeftParen;
  }

  lemma {:induction false} NoOpenLeft(ops: seq<Op>, n: nat)
    requires LeftParen in ops
    ensures Left(ops, n) == None
    decreases |ops|
  {
    if Enough(ops[0], n) { NoOpenLeft(ops[1..], if ops[0].Term? then n + 1 else if ops[0] == Not then n else n - 1); }
  }

  lemma {:induction false} OpenIsRefused(r: Read)
    requires r.Inside?
    ensures TreeOf(Compile(ReadToks(r))) == None
  {
    var ops := Compile(ReadToks(r));
    OpenStays(r);
    NoOpenLeft(ops, 0);
    AcceptedIffItCounts(ops);
  }

  lemma {:induction false} TokensAreWritable(text: string, i: nat)
    requires i <= |text|
    ensures forall j :: 0 <= j < |Tokens(text, i)| ==> Writable(Tokens(text, i)[j])
    decreases |text| - i
  {
    if i < |text| {
      var op := Class(text[i]);
      if op == Unknown {
        TokensAreWritable(text, WordEnd(text, i));
        WordHolds(text, i);
      } else {
        TokensAreWritable(text, i + 1);
      }
    }
  }

  lemma {:induction false} WordHolds(text: string, i: nat)
    requires i <= |text|
    ensures forall j :: i <= j < WordEnd(text, i) ==> Class(text[j]) == Unknown
    decreases |text| - i
  {
    if i < |text| && Class(text[i]) == Unknown { WordHolds(text, i + 1); }
  }

  /** Exactly: a text is accepted if and only if it is lines of the grammar whose parts, taken in turn, never lack
      an operand and leave one. */
  lemma {:induction false} AcceptedIffBalanced(text: string)
    ensures TreeOf(Compile(Tokens(text, 0))).Some? <==>
            exists t :: LinesToks(t) == Tokens(text, 0) && LinesEffect(t) == Effect(0, 1)
  {
    TokensAreWritable(text, 0);
    var r := ReadAll(Tokens(text, 0));
    if r.Inside? {
      OpenIsRefused(r);
    } else {
      LinesAreAcceptedIff(r.t);
    }
    if t :| LinesToks(t) == Tokens(text, 0) && LinesEffect(t) == Effect(0, 1) { LinesAreAcceptedIff(t); }
  }
}
