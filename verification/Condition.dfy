/** The condition language of yazi-shared/src/condition.rs: a shunting-yard compiler to postfix
    and a stack evaluator, against expression trees. */
module Condition {
  import opened Wrappers

  datatype Op = Or | And | Not | Space | LeftParen | RightParen | Unknown | Term(s: string)

  function Class(c: char): Op {
    match c
    case '|' => Or
    case '&' => And
    case '!' => Not
    case '(' => LeftParen
    case ')' => RightParen
    case _ => if c == ' ' || c == '\t' || c == '\n' || c == '\r' || c == '\U{000C}' then Space else Unknown
  }

  function Prec(op: Op): nat {
    match op
    case Or => 1
    case And => 2
    case Not => 3
    case _ => 0
  }

  /** Whether an operator on the stack yields to an incoming one. `!` never yields to `!`. */
  predicate Yields(last: Op, op: Op) {
    Prec(last) >= Prec(op) && !(last == Not && op == Not)
  }

  // --- The compiler as a function of tokens

  /** The end of the run of term characters at i. */
  function WordEnd(text: string, i: nat): (e: nat)
    requires i <= |text|
    ensures i <= e <= |text|
    decreases |text| - i
  {
    if i < |text| && Class(text[i]) == Unknown then WordEnd(text, i + 1) else i
  }

  function Tokens(text: string, i: nat): seq<Op>
    requires i <= |text|
    decreases |text| - i
  {
    if i == |text| then []
    else
      var op := Class(text[i]);
      if op == Space then Tokens(text, i + 1)
      else if op == Unknown then [Term(text[i..WordEnd(text, i)])] + Tokens(text, WordEnd(text, i))
      else [op] + Tokens(text, i + 1)
  }

  /** The operator stack, top first, and the output so far. */
  datatype State = State(stack: seq<Op>, output: seq<Op>)

  function Unwind(st: State, op: Op): State
    decreases |st.stack|
  {
    if st.stack != [] && Yields(st.stack[0], op)
    then Unwind(State(st.stack[1..], st.output + [st.stack[0]]), op)
    else st
  }

  function CloseParen(st: State): State
    decreases |st.stack|
  {
    if st.stack == [] then st
    else if st.stack[0] == LeftParen then State(st.stack[1..], st.output)
    else CloseParen(State(st.stack[1..], st.output + [st.stack[0]]))
  }

  function Feed1(st: State, tok: Op): State {
    match tok
    case LeftParen => State([tok] + st.stack, st.output)
    case RightParen => CloseParen(st)
    case Term(_) => State(st.stack, st.output + [tok])
    case Space => st
    case Unknown => st
    case _ => var u := Unwind(st, tok); State([tok] + u.stack, u.output)
  }

  function Feed(st: State, toks: seq<Op>): State
    decreases |toks|
  {
    if toks == [] then st else Feed(Feed1(st, toks[0]), toks[1..])
  }

  function Compile(toks: seq<Op>): seq<Op> {
    var st := Feed(State([], []), toks); st.output + st.stack
  }

  /** The characters of a term, from its first on. */
  method TakeWord(expr: string, start: nat) returns (word: string)
    requires start < |expr| && Class(expr[start]) == Unknown
    ensures start < WordEnd(expr, start) && word == expr[start..WordEnd(expr, start)]
  {
    word := [expr[start]];
    var i := start;
    while i + 1 < |expr| && Class(expr[i + 1]) == Unknown
      invariant start <= i < |expr| && word == expr[start..i + 1]
      invariant WordEnd(expr, i + 1) == WordEnd(expr, start)
    {
      i := i + 1;
      word := word + [expr[i]];
    }
  }

  method Build(expr: string) returns (ops: seq<Op>)
    ensures ops == Compile(Tokens(expr, 0))
  {
    var stack: seq<Op>, output: seq<Op>, i := [], [], 0;
    ghost var end := Feed(State([], []), Tokens(expr, 0));
    while i < |expr|
      invariant 0 <= i <= |expr|
      invariant Feed(State(stack, output), Tokens(expr, i)) == end
    {
      var op := Class(expr[i]);
      ghost var before := State(stack, output);
      match op {
        case Or | And | Not =>
          while stack != [] && Yields(stack[0], op)
            invariant Unwind(State(stack, output), op) == Unwind(before, op)
            decreases |stack|
          {
            stack, output := stack[1..], output + [stack[0]];
          }
          stack := [op] + stack;
        case LeftParen => stack := [op] + stack;
        case RightParen =>
          while stack != [] && stack[0] != LeftParen
            invariant CloseParen(State(stack, output)) == CloseParen(before)
            decreases |stack|
          {
            stack, output := stack[1..], output + [stack[0]];
          }
          if stack != [] { stack := stack[1..]; }
        case Unknown =>
          var word := TakeWord(expr, i);
          output := output + [Term(word)];
          i := i + |word| - 1;
        case Space =>
      }
      i := i + 1;
    }
    ops := output + stack;
  }

  // --- The evaluator

  function EvalFrom(ops: seq<Op>, f: string -> bool, stack: seq<bool>): Option<seq<bool>>
    decreases |ops|
  {
    if ops == [] then Some(stack)
    else match ops[0]
      case Or => if |stack| < 2 then None else EvalFrom(ops[1..], f, [stack[0] || stack[1]] + stack[2..])
      case And => if |stack| < 2 then None else EvalFrom(ops[1..], f, [stack[0] && stack[1]] + stack[2..])
      case Not => if |stack| < 1 then None else EvalFrom(ops[1..], f, [!stack[0]] + stack[1..])
      case Term(s) => EvalFrom(ops[1..], f, [f(s)] + stack)
      case _ => None
  }

  function Eval(ops: seq<Op>, f: string -> bool): Option<bool> {
    match EvalFrom(ops, f, [])
    case None => None
    case Some(stack) => if |stack| == 1 then Some(stack[0]) else None
  }

  method Evaluate(ops: seq<Op>, f: string -> bool) returns (r: Option<bool>)
    ensures r == Eval(ops, f)
  {
    var stack: seq<bool> := [];
    for i := 0 to |ops|
      invariant EvalFrom(ops, f, []) == EvalFrom(ops[i..], f, stack)
    {
      assert ops[i..][0] == ops[i] && ops[i..][1..] == ops[i + 1..];
      match ops[i] {
        case Or =>
          if |stack| < 2 { return None; }
          stack := [stack[0] || stack[1]] + stack[2..];
        case And =>
          if |stack| < 2 { return None; }
          stack := [stack[0] && stack[1]] + stack[2..];
        case Not =>
          if |stack| < 1 { return None; }
          stack := [!stack[0]] + stack[1..];
        case Term(s) => stack := [f(s)] + stack;
        case _ => return None;
      }
    }
    r := if |stack| == 1 then Some(stack[0]) else None;
  }

  // --- Postfix programs are trees

  datatype Expr = Leaf(s: string) | Negate(e: Expr) | Both(l: Expr, r: Expr) | Either(l: Expr, r: Expr)

  function Value(e: Expr, f: string -> bool): bool {
    match e
    case Leaf(s) => f(s)
    case Negate(x) => !Value(x, f)
    case Both(l, r) => Value(l, f) && Value(r, f)
    case Either(l, r) => Value(l, f) || Value(r, f)
  }

  function Postfix(e: Expr): seq<Op> {
    match e
    case Leaf(s) => [Term(s)]
    case Negate(x) => Postfix(x) + [Not]
    case Both(l, r) => Postfix(l) + Postfix(r) + [And]
    case Either(l, r) => Postfix(l) + Postfix(r) + [Or]
  }

  predicate Enough(op: Op, n: nat) {
    op.Term? || (op == Not && n >= 1) || ((op == And || op == Or) && n >= 2)
  }

  function Apply(op: Op, stack: seq<Expr>): seq<Expr>
    requires Enough(op, |stack|)
  {
    if op == Or then [Either(stack[1], stack[0])] + stack[2..]
    else if op == And then [Both(stack[1], stack[0])] + stack[2..]
    else if op == Not then [Negate(stack[0])] + stack[1..]
    else [Leaf(op.s)] + stack
  }

  /** Reads a postfix program back into trees instead of values. */
  function Trees(ops: seq<Op>, stack: seq<Expr>): Option<seq<Expr>>
    decreases |ops|
  {
    if ops == [] then Some(stack)
    else if !Enough(ops[0], |stack|) then None
    else Trees(ops[1..], Apply(ops[0], stack))
  }

  function TreeOf(ops: seq<Op>): Option<Expr> {
    match Trees(ops, [])
    case None => None
    case Some(stack) => if |stack| == 1 then Some(stack[0]) else None
  }

  /** How many operands are left after the program, nothing when one is missing on the way. */
  function Left(ops: seq<Op>, n: nat): Option<nat>
    decreases |ops|
  {
    if ops == [] then Some(n)
    else if !Enough(ops[0], n) then None
    else Left(ops[1..], if ops[0].Term? then n + 1 else if ops[0] == Not then n else n - 1)
  }

  lemma {:induction false} TreesCount(ops: seq<Op>, stack: seq<Expr>)
    ensures Left(ops, |stack|) == match Trees(ops, stack) case None => None case Some(r) => Some(|r|)
    decreases |ops|
  {
    if ops != [] && Enough(ops[0], |stack|) { TreesCount(ops[1..], Apply(ops[0], stack)); }
  }

  /** So a text is accepted exactly when its operators, in the order in which the compiler puts them out, never
      lack an operand, one operand is left, and no parenthesis was left open. */
  lemma {:induction false} AcceptedIffItCounts(ops: seq<Op>)
    ensures TreeOf(ops).Some? <==> Left(ops, 0) == Some(1)
  {
    TreesCount(ops, []);
  }

  function Values(stack: seq<Expr>, f: string -> bool): seq<bool> {
    seq(|stack|, i requires 0 <= i < |stack| => Value(stack[i], f))
  }

  lemma {:induction false} EvalIsTrees(ops: seq<Op>, f: string -> bool, stack: seq<Expr>)
    ensures EvalFrom(ops, f, Values(stack, f)) ==
            match Trees(ops, stack) case None => None case Some(r) => Some(Values(r, f))
    decreases |ops|
  {
    if ops != [] && Enough(ops[0], |stack|) {
      var vs, next := Values(stack, f), Values(Apply(ops[0], stack), f);
      match ops[0] {
        case Or => assert [vs[0] || vs[1]] + vs[2..] == next;
        case And => assert [vs[0] && vs[1]] + vs[2..] == next;
        case Not => assert [!vs[0]] + vs[1..] == next;
        case Term(s) => assert [f(s)] + vs == next;
      }
      EvalIsTrees(ops[1..], f, Apply(ops[0], stack));
    }
  }

  /** A program evaluates to the value of the one tree it denotes, and to nothing when it denotes none.
      Which of the two happens does not depend on the terms. */
  lemma {:induction false} EvalIsTreeValue(ops: seq<Op>, f: string -> bool)
    ensures Eval(ops, f) == match TreeOf(ops) case None => None case Some(e) => Some(Value(e, f))
  {
    EvalIsTrees(ops, f, []);
    assert Values([], f) == [];
  }

  lemma {:induction false} TreesStep(op: Op, rest: seq<Op>, stack: seq<Expr>)
    requires Enough(op, |stack|)
    ensures Trees([op] + rest, stack) == Trees(rest, Apply(op, stack))
  {
    assert ([op] + rest)[1..] == rest;
  }

  lemma {:induction false} TreesOfPostfix(e: Expr, rest: seq<Op>, stack: seq<Expr>)
    ensures Trees(Postfix(e) + rest, stack) == Trees(rest, [e] + stack)
    decreases e, 1
  {
    match e {
      case Leaf(s) =>
        TreesStep(Term(s), rest, stack);
      case Negate(x) =>
        assert Postfix(e) + rest == Postfix(x) + ([Not] + rest);
        TreesOfPostfix(x, [Not] + rest, stack);
        TreesStep(Not, rest, [x] + stack);
        assert ([x] + stack)[1..] == stack;
      case Both(l, r) =>
        assert Postfix(e) + rest == Postfix(l) + (Postfix(r) + ([And] + rest));
        TreesOfPair(l, r, And, rest, stack);
      case Either(l, r) =>
        assert Postfix(e) + rest == Postfix(l) + (Postfix(r) + ([Or] + rest));
        TreesOfPair(l, r, Or, rest, stack);
    }
  }

  lemma {:induction false} TreesOfPair(l: Expr, r: Expr, op: Op, rest: seq<Op>, stack: seq<Expr>)
    requires op == And || op == Or
    ensures Trees(Postfix(l) + (Postfix(r) + ([op] + rest)), stack) ==
            Trees(rest, [if op == And then Both(l, r) else Either(l, r)] + stack)
    decreases if op == And then Both(l, r) else Either(l, r), 0
  {
    TreesOfPostfix(l, Postfix(r) + ([op] + rest), stack);
    TreesOfPostfix(r, [op] + rest, [l] + stack);
    TreesStep(op, rest, [r] + ([l] + stack));
    assert ([r] + ([l] + stack))[2..] == stack;
  }

  /** The programs of the trees on a stack, the deepest first. */
  function Postfixes(stack: seq<Expr>): seq<Op> {
    if stack == [] then [] else Postfixes(stack[1..]) + Postfix(stack[0])
  }

  lemma {:induction false} TreesKeepProgram(ops: seq<Op>, stack: seq<Expr>)
    requires Trees(ops, stack).Some?
    ensures Postfixes(Trees(ops, stack).value) == Postfixes(stack) + ops
    decreases |ops|
  {
    if ops != [] {
      TreesKeepProgram(ops[1..], Apply(ops[0], stack));
      ApplyKeepsProgram(ops[0], stack);
      assert Postfixes(stack) + [ops[0]] + ops[1..] == Postfixes(stack) + ops;
    }
  }

  lemma {:induction false} PostfixesCons(e: Expr, rest: seq<Expr>)
    ensures Postfixes([e] + rest) == Postfixes(rest) + Postfix(e)
  {
    assert ([e] + rest)[1..] == rest;
  }

  lemma {:induction false} BinaryKeepsProgram(op: Op, l: Expr, r: Expr, x: Expr, below: seq<Expr>)
    requires Postfix(x) == Postfix(l) + Postfix(r) + [op]
    ensures Postfixes([x] + below) == Postfixes([r] + ([l] + below)) + [op]
  {
    PostfixesCons(r, [l] + below);
    PostfixesCons(l, below);
    PostfixesCons(x, below);
    Reassociate(Postfixes(below), Postfix(l), Postfix(r), [op]);
  }

  lemma {:induction false} UnaryKeepsProgram(e: Expr, below: seq<Expr>)
    ensures Postfixes([Negate(e)] + below) == Postfixes([e] + below) + [Not]
  {
    PostfixesCons(e, below);
    PostfixesCons(Negate(e), below);
    Reassociate(Postfixes(below), [], Postfix(e), [Not]);
  }

  lemma {:induction false} ApplyKeepsProgram(op: Op, stack: seq<Expr>)
    requires Enough(op, |stack|)
    ensures Postfixes(Apply(op, stack)) == Postfixes(stack) + [op]
  {
    if op.Term? {
      PostfixesCons(Leaf(op.s), stack);
    } else if op == Not {
      UnaryKeepsProgram(stack[0], stack[1..]);
      assert stack == [stack[0]] + stack[1..];
    } else {
      BinaryKeepsProgram(op, stack[1], stack[0], Apply(op, stack)[0], stack[2..]);
      assert stack == [stack[0]] + ([stack[1]] + stack[2..]);
    }
  }

  lemma {:induction false} Reassociate(a: seq<Op>, b: seq<Op>, c: seq<Op>, d: seq<Op>)
    ensures a + (b + c + d) == a + b + c + d && a + (c + d) == a + c + d
  {}

  /** Programs that evaluate to something are exactly the postfix forms of trees, each of one tree. */
  lemma {:induction false} TreeOfIsInverseOfPostfix(ops: seq<Op>, e: Expr)
    ensures TreeOf(ops) == Some(e) <==> ops == Postfix(e)
  {
    TreesOfPostfix(e, [], []);
    assert Postfix(e) + [] == Postfix(e);
    if TreeOf(ops) == Some(e) {
      TreesKeepProgram(ops, []);
      assert Trees(ops, []).value == [e] == [e] + [];
      PostfixesCons(e, []);
      assert Postfixes([]) == [] && [] + ops == ops && [] + Postfix(e) == Postfix(e);
    }
  }

  /** Parsing a condition: a text is refused when its program evaluates to nothing. */
  method FromStr(expr: string) returns (cond: Option<seq<Op>>)
    ensures cond.Some? <==> TreeOf(Compile(Tokens(expr, 0))).Some?
    ensures cond.Some? ==> cond.value == Compile(Tokens(expr, 0))
    ensures cond.Some? ==> forall f :: Eval(cond.value, f).Some?
  {
    var ops := Build(expr);
    var r := Evaluate(ops, _ => true);
    EvalIsTreeValue(ops, _ => true);
    forall f ensures Eval(ops, f).Some? <==> TreeOf(ops).Some? {
      EvalIsTreeValue(ops, f);
    }
    cond := if r == None then None else Some(ops);
  }

  // --- Legal texts

  predicate Word(s: string) { s != "" && forall i :: 0 <= i < |s| ==> Class(s[i]) == Unknown }

  /** The token sequences that write an expression down where operators binding at least as tightly as
      `level` may stand bare: `|` binds at level 1, `&` at 2, `!` at 3, and parentheses may surround
      anything. When loose, a chain of one operator may be grouped either way; otherwise to the left. */
  ghost predicate Renders(loose: bool, e: Expr, level: nat, toks: seq<Op>)
    decreases |toks|, 1
  {
    || Parenthesized(loose, e, toks)
    || match e
       case Leaf(s) => Word(s) && toks == [Term(s)]
       case Negate(x) => |toks| >= 1 && toks[0] == Not && Renders(loose, x, 3, toks[1..])
       case Both(l, r) => level <= 2 && exists i :: SplitsAt(loose, And, l, r, toks, i)
       case Either(l, r) => level <= 1 && exists i :: SplitsAt(loose, Or, l, r, toks, i)
  }

  ghost predicate Parenthesized(loose: bool, e: Expr, toks: seq<Op>)
    decreases |toks|, 0
  {
    |toks| >= 2 && toks[0] == LeftParen && toks[|toks| - 1] == RightParen &&
    Renders(loose, e, 1, toks[1..|toks| - 1])
  }

  ghost predicate SplitsAt(loose: bool, op: Op, l: Expr, r: Expr, toks: seq<Op>, i: int)
    decreases |toks|, 0
  {
    0 <= i < |toks| && toks[i] == op && Renders(loose, l, Prec(op), toks[..i]) &&
    Renders(loose, r, if loose then Prec(op) else Prec(op) + 1, toks[i + 1..])
  }

  lemma {:induction false} FeedAppend(st: State, a: seq<Op>, b: seq<Op>)
    ensures Feed(st, a + b) == Feed(Feed(st, a), b)
    decreases |a|
  {
    if a == [] {
      assert a + b == b;
    } else {
      assert (a + b)[1..] == a[1..] + b;
      FeedAppend(Feed1(st, a[0]), a[1..], b);
    }
  }

  lemma {:induction false} FeedOne(st: State, tok: Op)
    ensures Feed(st, [tok]) == Feed1(st, tok)
  {
    assert [tok][1..] == [];
  }

  lemma {:induction false} FeedThrough(st: State, a: seq<Op>, op: Op, b: seq<Op>)
    ensures Feed(st, a + [op] + b) == Feed(Feed1(Feed(st, a), op), b)
  {
    FeedAppend(st, a + [op], b);
    FeedAppend(st, a, [op]);
    FeedOne(Feed(st, a), op);
  }

  ghost predicate Pending(p: seq<Op>, level: nat) {
    forall i :: 0 <= i < |p| ==> (p[i] == Or || p[i] == And || p[i] == Not) && Prec(p[i]) >= level
  }

  /** The stack below does not yield to operators of this level. */
  ghost predicate Below(k: seq<Op>, level: nat) { level == 3 || k == [] || Prec(k[0]) < level }

  lemma {:induction false} UnwindPending(p: seq<Op>, k: seq<Op>, o: seq<Op>, op: Op)
    requires op == And || op == Or
    requires Pending(p, Prec(op)) && Below(k, Prec(op))
    ensures Unwind(State(p + k, o), op) == State(k, o + p)
    decreases |p|
  {
    if p == [] {
      assert p + k == k && o + p == o;
    } else {
      assert (p + k)[1..] == p[1..] + k && o + [p[0]] + p[1..] == o + p;
      UnwindPending(p[1..], k, o + [p[0]], op);
    }
  }

  lemma {:induction false} ClosePending(p: seq<Op>, k: seq<Op>, o: seq<Op>)
    requires Pending(p, 1)
    ensures CloseParen(State(p + ([LeftParen] + k), o)) == State(k, o + p)
    decreases |p|
  {
    if p == [] {
      assert p + ([LeftParen] + k) == [LeftParen] + k && o + p == o;
      assert ([LeftParen] + k)[1..] == k;
    } else {
      assert (p + ([LeftParen] + k))[1..] == p[1..] + ([LeftParen] + k) && o + [p[0]] + p[1..] == o + p;
      ClosePending(p[1..], k, o + [p[0]]);
    }
  }

  /** Feeding the rendering of an expression leaves the stack below alone: the operators still pending,
      appended to what was put out, complete the expression's postfix form. */
  lemma {:induction false} Feeds(e: Expr, level: nat, toks: seq<Op>, k: seq<Op>, o: seq<Op>)
    returns (p: seq<Op>, c: seq<Op>)
    requires Renders(false, e, level, toks) && 1 <= level <= 3 && Below(k, level)
    ensures Feed(State(k, o), toks) == State(p + k, o + c)
    ensures Pending(p, level) && c + p == Postfix(e)
    decreases |toks|, 1
  {
    if Parenthesized(false, e, toks) {
      p, c := FeedsParens(e, toks, k, o);
    } else {
      match e {
        case Leaf(s) =>
          FeedOne(State(k, o), Term(s));
          p, c := [], [Term(s)];
          assert [] + k == k && c + p == c;
        case Negate(x) =>
          var q, d := Feeds(x, 3, toks[1..], [Not] + k, o);
          assert Unwind(State(k, o), Not) == State(k, o);
          p, c := q + [Not], d;
          assert q + ([Not] + k) == p + k && c + p == d + q + [Not];
        case Both(l, r) =>
          var i :| SplitsAt(false, And, l, r, toks, i);
          p, c := FeedsPair(l, r, And, toks, i, k, o);
        case Either(l, r) =>
          var i :| SplitsAt(false, Or, l, r, toks, i);
          p, c := FeedsPair(l, r, Or, toks, i, k, o);
      }
    }
  }

  lemma {:induction false} FeedsParens(e: Expr, toks: seq<Op>, k: seq<Op>, o: seq<Op>)
    returns (p: seq<Op>, c: seq<Op>)
    requires Parenthesized(false, e, toks)
    ensures Feed(State(k, o), toks) == State(p + k, o + c)
    ensures p == [] && c == Postfix(e)
    decreases |toks|, 0
  {
    var inner := toks[1..|toks| - 1];
    var q, d := Feeds(e, 1, inner, [LeftParen] + k, o);
    assert toks == [LeftParen] + inner + [RightParen];
    FeedAppend(State(k, o), [LeftParen] + inner, [RightParen]);
    FeedAppend(State(k, o), [LeftParen], inner);
    FeedOne(State(k, o), LeftParen);
    FeedOne(State(q + ([LeftParen] + k), o + d), RightParen);
    ClosePending(q, k, o + d);
    p, c := [], d + q;
    assert o + d + q == o + c && p + k == k;
  }

  lemma {:induction false} FeedsPair(l: Expr, r: Expr, op: Op, toks: seq<Op>, i: nat, k: seq<Op>, o: seq<Op>)
    returns (p: seq<Op>, c: seq<Op>)
    requires (op == And || op == Or) && Below(k, Prec(op)) && SplitsAt(false, op, l, r, toks, i)
    ensures Feed(State(k, o), toks) == State(p + k, o + c)
    ensures Pending(p, Prec(op)) && c + p == Postfix(l) + Postfix(r) + [op]
    decreases |toks|, 0
  {
    var q, d := Feeds(l, Prec(op), toks[..i], k, o);
    assert toks == toks[..i] + [op] + toks[i + 1..];
    FeedThrough(State(k, o), toks[..i], op, toks[i + 1..]);
    UnwindPending(q, k, o + d, op);
    var q', d' := Feeds(r, Prec(op) + 1, toks[i + 1..], [op] + k, o + d + q);
    p, c := q' + [op], d + q + d';
    Rejoin(d, q, d', q', op, k, o);
  }

  lemma {:induction false} Rejoin(d: seq<Op>, q: seq<Op>, d': seq<Op>, q': seq<Op>, op: Op, k: seq<Op>, o: seq<Op>)
    ensures q' + ([op] + k) == q' + [op] + k
    ensures o + d + q + d' == o + (d + q + d')
    ensures d + q + d' + (q' + [op]) == (d + q) + (d' + q') + [op]
  {}

  /** The compiler turns a rendering, grouped to the left, into the postfix form of its expression. */
  lemma {:induction false} CompileIsPostfix(e: Expr, toks: seq<Op>)
    requires Renders(false, e, 1, toks)
    ensures Compile(toks) == Postfix(e)
  {
    var p, c := Feeds(e, 1, toks, [], []);
    assert p + [] == p && [] + c == c;
  }

  // --- Grouping a chain the other way does not change its value

  function Binary(op: Op, l: Expr, r: Expr): Expr { if op == And then Both(l, r) else Either(l, r) }

  lemma {:induction false} SplitRenders(loose: bool, op: Op, l: Expr, r: Expr, toks: seq<Op>, i: int, level: nat)
    requires (op == And || op == Or) && SplitsAt(loose, op, l, r, toks, i) && level <= Prec(op)
    ensures Renders(loose, Binary(op, l, r), level, toks)
  {}

  lemma {:induction false} Regroup(op: Op, l: Expr, lt: seq<Op>, r: Expr, rt: seq<Op>) returns (e: Expr)
    requires (op == And || op == Or) && Renders(false, l, Prec(op), lt) && Renders(false, r, Prec(op), rt)
    ensures forall level: nat :: level <= Prec(op) ==> Renders(false, e, level, lt + [op] + rt)
    ensures forall f :: Value(e, f) == Value(Binary(op, l, r), f)
    decreases |rt|
  {
    var a, b, i, toks := l, r, |lt|, lt + [op] + rt;
    if Renders(false, r, Prec(op) + 1, rt) {
      assert toks[..i] == lt && toks[i + 1..] == rt;
    } else {
      var j :| SplitsAt(false, op, r.l, r.r, rt, j);
      a := Regroup(op, l, lt, r.l, rt[..j]);
      b, i := r.r, |lt| + 1 + j;
      assert toks[..i] == lt + [op] + rt[..j] && toks[i + 1..] == rt[j + 1..];
    }
    e := Binary(op, a, b);
    forall level: nat | level <= Prec(op) ensures Renders(false, e, level, toks) {
      SplitRenders(false, op, a, b, toks, i, level);
    }
  }

  /** Every loosely grouped rendering is a left-grouped rendering of an expression of the same value. */
  lemma {:induction false} Tighten(e: Expr, level: nat, toks: seq<Op>) returns (e': Expr)
    requires Renders(true, e, level, toks)
    ensures Renders(false, e', level, toks)
    ensures forall f :: Value(e', f) == Value(e, f)
    decreases |toks|, 1
  {
    if Parenthesized(true, e, toks) {
      e' := Tighten(e, 1, toks[1..|toks| - 1]);
      assert Parenthesized(false, e', toks);
    } else {
      match e {
        case Leaf(s) => e' := e;
        case Negate(x) =>
          var x' := Tighten(x, 3, toks[1..]);
          e' := Negate(x');
        case Both(l, r) =>
          var i :| SplitsAt(true, And, l, r, toks, i);
          e' := TightenPair(And, l, r, toks, i);
        case Either(l, r) =>
          var i :| SplitsAt(true, Or, l, r, toks, i);
          e' := TightenPair(Or, l, r, toks, i);
      }
    }
  }

  lemma {:induction false} TightenPair(op: Op, l: Expr, r: Expr, toks: seq<Op>, i: nat) returns (e': Expr)
    requires (op == And || op == Or) && SplitsAt(true, op, l, r, toks, i)
    ensures forall level: nat :: level <= Prec(op) ==> Renders(false, e', level, toks)
    ensures forall f :: Value(e', f) == Value(Binary(op, l, r), f)
    decreases |toks|, 0
  {
    var l' := Tighten(l, Prec(op), toks[..i]);
    var r' := Tighten(r, Prec(op), toks[i + 1..]);
    e' := Regroup(op, l', toks[..i], r', toks[i + 1..]);
    assert toks == toks[..i] + [op] + toks[i + 1..];
  }

  // --- Layout: any white space around the tokens

  predicate Blank(g: string) { forall i :: 0 <= i < |g| ==> Class(g[i]) == Space }

  function Spell(op: Op): string {
    match op
    case Or => "|"
    case And => "&"
    case Not => "!"
    case LeftParen => "("
    case RightParen => ")"
    case Term(s) => s
    case _ => ""
  }

  function Layout(toks: seq<Op>, gaps: seq<string>): string
    requires |gaps| == |toks| + 1
  {
    gaps[0] + (if toks == [] then "" else Spell(toks[0]) + Layout(toks[1..], gaps[1..]))
  }

  predicate Writable(op: Op) {
    match op case Term(s) => Word(s) case Space => false case Unknown => false case _ => true
  }

  /** Tokens that can be told apart without any white space: no two terms in a row. */
  ghost predicate Separable(toks: seq<Op>) {
    && (forall i :: 0 <= i < |toks| ==> Writable(toks[i]))
    && (forall i :: 0 <= i < |toks| - 1 ==> !(toks[i].Term? && toks[i + 1].Term?))
  }

  lemma {:induction false} RendersSeparable(loose: bool, e: Expr, level: nat, toks: seq<Op>)
    requires Renders(loose, e, level, toks)
    ensures Separable(toks)
    decreases |toks|, 1
  {
    if Parenthesized(loose, e, toks) {
      RendersSeparable(loose, e, 1, toks[1..|toks| - 1]);
      assert toks == [LeftParen] + toks[1..|toks| - 1] + [RightParen];
    } else {
      match e {
        case Leaf(s) =>
        case Negate(x) =>
          RendersSeparable(loose, x, 3, toks[1..]);
          assert toks == [Not] + toks[1..];
        case Both(l, r) =>
          var i :| SplitsAt(loose, And, l, r, toks, i);
          SplitSeparable(loose, And, l, r, toks, i);
        case Either(l, r) =>
          var i :| SplitsAt(loose, Or, l, r, toks, i);
          SplitSeparable(loose, Or, l, r, toks, i);
      }
    }
  }

  lemma {:induction false} SplitSeparable(loose: bool, op: Op, l: Expr, r: Expr, toks: seq<Op>, i: int)
    requires (op == And || op == Or) && SplitsAt(loose, op, l, r, toks, i)
    ensures Separable(toks)
    decreases |toks|, 0
  {
    RendersSeparable(loose, l, Prec(op), toks[..i]);
    RendersSeparable(loose, r, if loose then Prec(op) else Prec(op) + 1, toks[i + 1..]);
    forall j | 0 <= j < |toks| ensures Writable(toks[j]) && (j + 1 < |toks| ==> !(toks[j].Term? && toks[j + 1].Term?)) {
      if j < i { assert toks[..i][j] == toks[j]; }
      if j + 1 < i { assert toks[..i][j + 1] == toks[j + 1]; }
      if j > i { assert toks[i + 1..][j - i - 1] == toks[j]; }
      if j > i && j + 1 < |toks| { assert toks[i + 1..][j - i] == toks[j + 1]; }
    }
  }

  lemma {:induction false} SkipBlank(text: string, i: nat, n: nat)
    requires i + n <= |text| && Blank(text[i..i + n])
    ensures Tokens(text, i) == Tokens(text, i + n)
    decreases n
  {
    if n > 0 {
      assert text[i..i + n][0] == text[i] && text[i + 1..i + n] == text[i..i + n][1..];
      SkipBlank(text, i + 1, n - 1);
    }
  }

  lemma {:induction false} WordEnds(text: string, i: nat, n: nat)
    requires i + n <= |text| && forall j :: i <= j < i + n ==> Class(text[j]) == Unknown
    requires i + n < |text| ==> Class(text[i + n]) != Unknown
    ensures WordEnd(text, i) == i + n
    decreases n
  {
    if n > 0 { WordEnds(text, i + 1, n - 1); }
  }

  lemma {:induction false} SuffixOf(text: string, i: nat, a: string, b: string)
    requires i <= |text| && text[i..] == a + b
    ensures i + |a| <= |text| && text[i..i + |a|] == a && text[i + |a|..] == b
  {
    assert text[i..i + |a|] == text[i..][..|a|];
    assert text[i + |a|..] == text[i..][|a|..];
  }

  lemma {:induction false} ReadOne(text: string, i: nat, op: Op, rest: string)
    requires i <= |text| && text[i..] == Spell(op) + rest && Writable(op)
    requires op.Term? && rest != "" ==> Class(rest[0]) != Unknown
    ensures i + |Spell(op)| <= |text| && text[i + |Spell(op)|..] == rest
    ensures Tokens(text, i) == [op] + Tokens(text, i + |Spell(op)|)
  {
    var w := Spell(op);
    SuffixOf(text, i, w, rest);
    assert forall j :: i <= j < i + |w| ==> text[j] == text[i..i + |w|][j - i];
    if op.Term? {
      assert rest != "" ==> text[i + |w|] == rest[0];
      WordEnds(text, i, |w|);
    }
  }

  ghost predicate Blanks(gaps: seq<string>) { forall j :: 0 <= j < |gaps| ==> Blank(gaps[j]) }

  lemma {:induction false} SeparableTail(toks: seq<Op>)
    requires Separable(toks) && toks != []
    ensures Separable(toks[1..]) && Writable(toks[0])
    ensures toks[0].Term? && toks[1..] != [] ==> Writable(toks[1]) && !toks[1].Term?
  {}

  /** What a layout begins with, read off the text. */
  lemma {:induction false} ReadHead(text: string, i: nat, toks: seq<Op>, gaps: seq<string>)
    requires i <= |text| && |gaps| == |toks| + 1 && toks != [] && Blank(gaps[0]) && Blank(gaps[1])
    requires Writable(toks[0]) && (toks[0].Term? && toks[1..] != [] ==> Writable(toks[1]) && !toks[1].Term?)
    requires text[i..] == Layout(toks, gaps)
    ensures var k := i + |gaps[0]| + |Spell(toks[0])|;
      k <= |text| && Tokens(text, i) == [toks[0]] + Tokens(text, k) && text[k..] == Layout(toks[1..], gaps[1..])
  {
    var tail := Layout(toks[1..], gaps[1..]);
    if toks[0].Term? { LayoutStart(toks[1..], gaps[1..]); }
    ReadParts(text, i, gaps[0], toks[0], tail);
  }

  lemma {:induction false} SkipGap(text: string, i: nat, gap: string, rest: string)
    requires i <= |text| && text[i..] == gap + rest && Blank(gap)
    ensures i + |gap| <= |text| && text[i + |gap|..] == rest && Tokens(text, i) == Tokens(text, i + |gap|)
  {
    SuffixOf(text, i, gap, rest);
    SkipBlank(text, i, |gap|);
  }

  lemma {:induction false} ReadParts(text: string, i: nat, gap: string, op: Op, tail: string)
    requires i <= |text| && text[i..] == gap + (Spell(op) + tail) && Blank(gap) && Writable(op)
    requires op.Term? && tail != "" ==> Class(tail[0]) != Unknown
    ensures var k := i + |gap| + |Spell(op)|;
      k <= |text| && Tokens(text, i) == [op] + Tokens(text, k) && text[k..] == tail
  {
    var j := i + |gap|;
    SkipGap(text, i, gap, Spell(op) + tail);
    ReadOne(text, j, op, tail);
  }

  /** Reading a laid out token sequence gives it back. */
  lemma {:induction false} LayoutRoundTrip(text: string, i: nat, toks: seq<Op>, gaps: seq<string>)
    requires i <= |text| && |gaps| == |toks| + 1 && Separable(toks) && Blanks(gaps)
    requires text[i..] == Layout(toks, gaps)
    ensures Tokens(text, i) == toks
    decreases |toks|
  {
    if toks == [] {
      assert Layout(toks, gaps) == gaps[0] + "";
      SuffixOf(text, i, gaps[0], "");
      SkipBlank(text, i, |gaps[0]|);
    } else {
      SeparableTail(toks);
      ReadHead(text, i, toks, gaps);
      LayoutRoundTrip(text, i + |gaps[0]| + |Spell(toks[0])|, toks[1..], gaps[1..]);
      assert toks == [toks[0]] + toks[1..];
    }
  }

  /** What follows a term in a layout does not continue it. */
  lemma {:induction false} LayoutStart(toks: seq<Op>, gaps: seq<string>)
    requires |gaps| == |toks| + 1 && Blank(gaps[0])
    requires toks != [] ==> Writable(toks[0]) && !toks[0].Term?
    ensures Layout(toks, gaps) != "" ==> Class(Layout(toks, gaps)[0]) != Unknown
  {}

  /** Every legal text of an expression, whatever its parentheses, grouping of chains and white space,
      compiles to a program that computes the expression's value. */
  lemma {:induction false} ConditionIsCorrect(e: Expr, toks: seq<Op>, gaps: seq<string>, f: string -> bool)
    requires Renders(true, e, 1, toks) && |gaps| == |toks| + 1 && Blanks(gaps)
    ensures Eval(Compile(Tokens(Layout(toks, gaps), 0)), f) == Some(Value(e, f))
  {
    var text := Layout(toks, gaps);
    RendersSeparable(true, e, 1, toks);
    assert text[0..] == text;
    LayoutRoundTrip(text, 0, toks, gaps);
    var e' := Tighten(e, 1, toks);
    CompileIsPostfix(e', toks);
    TreeOfIsInverseOfPostfix(Postfix(e'), e');
    EvalIsTreeValue(Postfix(e'), f);
  }
}
