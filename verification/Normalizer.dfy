/** The regex rewrite of yazi-fs/src/normalizer.rs, which lets a query also find the composed and
    decomposed forms of its text, against a denotational meaning of regular expressions. */
module Normalizer {
  import opened Wrappers

  /** A literal: its character and how it was written (0 is verbatim). */
  datatype Lit = Lit(c: int, kind: int)

  /** A group of flags: what it says about Unicode mode, and the rest. */
  datatype FlagSet = FlagSet(unicode: Option<bool>, other: Option<int>)

  datatype GroupKind = Capturing | NonCapturing(flags: FlagSet)

  datatype Ast =
    | Empty
    | Flags(flags: FlagSet)
    | Literal(lit: Lit)
    | Dot
    | Class(id: int)
    | Assertion(id: int)
    | Repetition(lo: nat, hi: Option<nat>, ast: Ast)
    | Group(kind: GroupKind, inner: Ast)
    | Alternation(branches: seq<Ast>)
    | Concat(parts: seq<Ast>)

  /** The flags in force: Unicode mode and everything else. */
  datatype Env = Env(unicode: bool, rest: int)

  /** The Unicode tables and one haystack: which spans of it a literal, a dot and a class cover, and
      where an assertion holds, under given flags. */
  datatype World = World(
    lit: (Lit, Env, int, int) -> bool,
    dot: (Env, int, int) -> bool,
    cls: (int, Env, int, int) -> bool,
    look: (int, Env, int) -> bool,
    adjust: (int, int) -> int,
    nfc: seq<int> -> seq<int>,
    nfd: seq<int> -> seq<int>)

  const MARK: int := 0  // the class \p{M}

  // --- Meaning

  function Under(w: World, f: FlagSet, env: Env): Env {
    Env(if f.unicode.Some? then f.unicode.value else env.unicode,
        if f.other.Some? then w.adjust(f.other.value, env.rest) else env.rest)
  }

  function Inside(w: World, kind: GroupKind, env: Env): Env {
    if kind.NonCapturing? then Under(w, kind.flags, env) else env
  }

  /** The flags in force after an expression; a group restores those before it. */
  function After(w: World, a: Ast, env: Env): Env
    decreases a, 1
  {
    match a
    case Flags(f) => Under(w, f, env)
    case Repetition(_, _, x) => After(w, x, env)
    case Alternation(xs) => AfterAll(w, xs, env)
    case Concat(xs) => AfterAll(w, xs, env)
    case _ => env
  }

  function AfterAll(w: World, xs: seq<Ast>, env: Env): Env
    decreases xs, 0
  {
    if xs == [] then env else AfterAll(w, xs[1..], After(w, xs[0], env))
  }

  /** True of every number; it gives the existential quantifiers below something to be found by. */
  predicate Candidate(k: int) { true }

  /** The expression covers the span from i to j. */
  ghost predicate Matches(w: World, a: Ast, env: Env, i: int, j: int)
    decreases a, 1, 0
  {
    match a
    case Empty => i == j
    case Flags(_) => i == j
    case Literal(l) => w.lit(l, env, i, j)
    case Dot => w.dot(env, i, j)
    case Class(id) => w.cls(id, env, i, j)
    case Assertion(id) => i == j && w.look(id, env, i)
    case Repetition(lo, hi, x) =>
      exists n: nat :: Candidate(n) && lo <= n && (hi.Some? ==> n <= hi.value) && Times(w, x, env, n, i, j)
    case Group(kind, x) => Matches(w, x, Inside(w, kind, env), i, j)
    case Alternation(xs) => AnyOf(w, xs, env, i, j)
    case Concat(xs) => AllOf(w, xs, env, i, j)
  }

  ghost predicate Times(w: World, a: Ast, env: Env, n: nat, i: int, j: int)
    decreases a, 1, n + 1
  {
    if n == 0 then i == j
    else exists k :: Candidate(k) && Matches(w, a, env, i, k) && Times(w, a, env, n - 1, k, j)
  }

  ghost predicate AnyOf(w: World, xs: seq<Ast>, env: Env, i: int, j: int)
    decreases xs, 0, 0
  {
    xs != [] && (Matches(w, xs[0], env, i, j) || AnyOf(w, xs[1..], After(w, xs[0], env), i, j))
  }

  ghost predicate AllOf(w: World, xs: seq<Ast>, env: Env, i: int, j: int)
    decreases xs, 0, 0
  {
    if xs == [] then i == j
    else exists k :: Candidate(k) && Matches(w, xs[0], env, i, k) && AllOf(w, xs[1..], After(w, xs[0], env), k, j)
  }

  // --- What a normalized query is meant to find, read off the original expression

  function Chars(lits: seq<Lit>): seq<int> { seq(|lits|, i requires 0 <= i < |lits| => lits[i].c) }

  function Verbatim(text: seq<int>): seq<Lit> { seq(|text|, i requires 0 <= i < |text| => Lit(text[i], 0)) }

  function Asts(lits: seq<Lit>): seq<Ast> { seq(|lits|, i requires 0 <= i < |lits| => Literal(lits[i])) }

  ghost predicate Spells(w: World, lits: seq<Lit>, env: Env, i: int, j: int) {
    AllOf(w, Asts(lits), env, i, j)
  }

  /** A run of literals finds itself and, in Unicode mode, its composed and decomposed forms. */
  ghost predicate RunFinds(w: World, lits: seq<Lit>, env: Env, i: int, j: int) {
    || Spells(w, lits, env, i, j)
    || (env.unicode && lits != [] && Spells(w, Verbatim(w.nfc(Chars(lits))), env, i, j))
    || (env.unicode && lits != [] && Spells(w, Verbatim(w.nfd(Chars(lits))), env, i, j))
  }

  /** Like `Matches`, but runs find all their forms and, in Unicode mode, a dot takes its marks along. */
  ghost predicate Finds(w: World, a: Ast, env: Env, i: int, j: int)
    decreases a, 1, 0
  {
    match a
    case Literal(l) => RunFinds(w, [l], env, i, j)
    case Dot => if env.unicode then exists k :: Candidate(k) && w.dot(env, i, k) && Marks(w, env, k, j) else w.dot(env, i, j)
    case Repetition(lo, hi, x) =>
      exists n: nat :: Candidate(n) && lo <= n && (hi.Some? ==> n <= hi.value) && FindsTimes(w, x, env, n, i, j)
    case Group(kind, x) => Finds(w, x, Inside(w, kind, env), i, j)
    case Alternation(xs) => FindsAny(w, xs, env, i, j)
    case Concat(xs) => FindsAll(w, xs, [], env, i, j)
    case _ => Matches(w, a, env, i, j)
  }

  ghost predicate Marks(w: World, env: Env, i: int, j: int) {
    exists n: nat :: Candidate(n) && Times(w, Class(MARK), env, n, i, j)
  }

  ghost predicate FindsTimes(w: World, a: Ast, env: Env, n: nat, i: int, j: int)
    decreases a, 1, n + 1
  {
    if n == 0 then i == j
    else exists k :: Candidate(k) && Finds(w, a, env, i, k) && FindsTimes(w, a, env, n - 1, k, j)
  }

  ghost predicate FindsAny(w: World, xs: seq<Ast>, env: Env, i: int, j: int)
    decreases xs, 0, 0
  {
    xs != [] && (Finds(w, xs[0], env, i, j) || FindsAny(w, xs[1..], After(w, xs[0], env), i, j))
  }

  /** Adjacent literals form one run; `run` is the one being collected. */
  ghost predicate FindsAll(w: World, xs: seq<Ast>, run: seq<Lit>, env: Env, i: int, j: int)
    decreases xs, 0, 0
  {
    if xs == [] then RunFinds(w, run, env, i, j)
    else if xs[0].Literal? then FindsAll(w, xs[1..], run + [xs[0].lit], env, i, j)
    else exists k, l :: Candidate(k) && Candidate(l) && RunFinds(w, run, env, i, k) && Finds(w, xs[0], env, k, l) &&
                        FindsAll(w, xs[1..], [], After(w, xs[0], env), l, j)
  }

  // --- The rewrite as a function

  /** Collapses what needs no node of its own. */
  function IntoAst(xs: seq<Ast>): Ast {
    if |xs| == 0 then Empty else if |xs| == 1 then xs[0] else Concat(xs)
  }

  const PLAIN := NonCapturing(FlagSet(None, None))

  const MARKS := Repetition(0, None, Class(MARK))

  const DOT_WITH_MARKS := Group(PLAIN, Concat([Dot, MARKS]))

  function NormalizeLiterals(w: World, lits: seq<Lit>, unicode: bool): (Ast, bool) {
    var raw, nfc, nfd := Chars(lits), w.nfc(Chars(lits)), w.nfd(Chars(lits));
    if !unicode || (raw == nfc && raw == nfd) then (IntoAst(Asts(lits)), false)
    else
      (Group(PLAIN, Alternation([IntoAst(Asts(lits))]
         + (if raw != nfc then [IntoAst(Asts(Verbatim(nfc)))] else [])
         + (if raw != nfd && nfc != nfd then [IntoAst(Asts(Verbatim(nfd)))] else []))), true)
  }

  function Unicode(f: FlagSet, unicode: bool): bool {
    if f.unicode.Some? then f.unicode.value else unicode
  }

  /** The rewritten expression, the Unicode flag after it, and whether anything changed. */
  function Normalized(w: World, a: Ast, unicode: bool): (Ast, bool, bool)
    decreases a, 1
  {
    match a
    case Dot => if unicode then (DOT_WITH_MARKS, unicode, true) else (a, unicode, false)
    case Literal(l) =>
      var (x, changed) := NormalizeLiterals(w, [l], unicode);
      (if changed then x else a, unicode, changed)
    case Repetition(lo, hi, x) =>
      var (x', u, changed) := Normalized(w, x, unicode);
      (Repetition(lo, hi, x'), u, changed)
    case Group(kind, x) =>
      var inside := if kind.NonCapturing? then Unicode(kind.flags, unicode) else unicode;
      var (x', _, changed) := Normalized(w, x, inside);
      (Group(kind, x'), unicode, changed)
    case Alternation(xs) =>
      var (xs', u, changed) := NormalizedEach(w, xs, unicode);
      (Alternation(xs'), u, changed)
    case Concat(xs) =>
      var (xs', u, changed) := NormalizedRuns(w, xs, [], unicode);
      (Concat(xs'), u, changed)
    case Flags(f) => (a, Unicode(f, unicode), false)
    case _ => (a, unicode, false)
  }

  function NormalizedEach(w: World, xs: seq<Ast>, unicode: bool): (seq<Ast>, bool, bool)
    decreases xs, 0
  {
    if xs == [] then ([], unicode, false)
    else
      var (x, u, changed) := Normalized(w, xs[0], unicode);
      var (rest, u', changed') := NormalizedEach(w, xs[1..], u);
      ([x] + rest, u', changed || changed')
  }

  function Flushed(w: World, run: seq<Lit>, unicode: bool): (seq<Ast>, bool) {
    if run == [] then ([], false)
    else var (x, changed) := NormalizeLiterals(w, run, unicode); ([x], changed)
  }

  function NormalizedRuns(w: World, xs: seq<Ast>, run: seq<Lit>, unicode: bool): (seq<Ast>, bool, bool)
    decreases xs, 0
  {
    if xs == [] then var (f, changed) := Flushed(w, run, unicode); (f, unicode, changed)
    else if xs[0].Literal? then NormalizedRuns(w, xs[1..], run + [xs[0].lit], unicode)
    else
      var (f, c0) := Flushed(w, run, unicode);
      var (x, u, c1) := Normalized(w, xs[0], unicode);
      var (rest, u', c2) := NormalizedRuns(w, xs[1..], [], u);
      (f + [x] + rest, u', c0 || c1 || c2)
  }

  // --- The rewrite as the code does it

  method NormalizeAst(w: World, a: Ast, unicode0: bool) returns (r: Ast, unicode: bool, changed: bool)
    ensures (r, unicode, changed) == Normalized(w, a, unicode0)
    decreases a, 1
  {
    r, unicode, changed := a, unicode0, false;
    match a {
      case Dot =>
        if unicode { r, changed := DOT_WITH_MARKS, true; }
      case Literal(l) =>
        var (x, c) := NormalizeLiterals(w, [l], unicode);
        if c { r := x; }
        changed := c;
      case Repetition(lo, hi, x) =>
        var x';
        x', unicode, changed := NormalizeAst(w, x, unicode);
        r := Repetition(lo, hi, x');
      case Group(kind, x) =>
        var outside := unicode;
        if kind.NonCapturing? { unicode := Unicode(kind.flags, unicode); }
        var x';
        x', unicode, changed := NormalizeAst(w, x, unicode);
        unicode := outside;
        r := Group(kind, x');
      case Alternation(xs) =>
        var ys;
        ys, unicode, changed := NormalizeBranches(w, xs, unicode);
        r := Alternation(ys);
      case Concat(xs) =>
        var ys;
        ys, unicode, changed := NormalizeConcat(w, xs, unicode);
        r := Concat(ys);
      case Flags(f) => unicode := Unicode(f, unicode);
      case _ =>
    }
  }

  method NormalizeBranches(w: World, xs: seq<Ast>, unicode0: bool)
    returns (ys: seq<Ast>, unicode: bool, changed: bool)
    ensures (ys, unicode, changed) == NormalizedEach(w, xs, unicode0)
    decreases xs, 0
  {
    ys, unicode, changed := [], unicode0, false;
    ghost var all := NormalizedEach(w, xs, unicode0);
    assert xs[0..] == xs;
    for n := 0 to |xs|
      invariant var t := NormalizedEach(w, xs[n..], unicode);
        all.0 == ys + t.0 && all.1 == t.1 && all.2 == (changed || t.2)
    {
      assert xs[n..][0] == xs[n] && xs[n..][1..] == xs[n + 1..];
      var y, c;
      y, unicode, c := NormalizeAst(w, xs[n], unicode);
      ys, changed := ys + [y], changed || c;
    }
    assert xs[|xs|..] == [] && ys + [] == ys;
  }

  /** The literals collected so far become one node. */
  method Flush(w: World, literals: seq<Lit>, unicode: bool, ys0: seq<Ast>, changed0: bool)
    returns (ys: seq<Ast>, changed: bool)
    ensures var (f, c) := Flushed(w, literals, unicode); ys == ys0 + f && changed == (changed0 || c)
  {
    ys, changed := ys0, changed0;
    if literals != [] {
      var (literal, normalized) := NormalizeLiterals(w, literals, unicode);
      ys, changed := ys + [literal], changed || normalized;
    }
  }

  method NormalizeConcat(w: World, xs: seq<Ast>, unicode0: bool) returns (ys: seq<Ast>, unicode: bool, changed: bool)
    ensures (ys, unicode, changed) == NormalizedRuns(w, xs, [], unicode0)
    decreases xs, 0
  {
    ys, unicode, changed := [], unicode0, false;
    var literals: seq<Lit> := [];
    ghost var all := NormalizedRuns(w, xs, [], unicode0);
    assert xs[0..] == xs;
    for n := 0 to |xs|
      invariant var t := NormalizedRuns(w, xs[n..], literals, unicode);
        all.0 == ys + t.0 && all.1 == t.1 && all.2 == (changed || t.2)
    {
      assert xs[n..][0] == xs[n] && xs[n..][1..] == xs[n + 1..];
      if xs[n].Literal? {
        literals := literals + [xs[n].lit];
        continue;
      }
      ghost var before, f := ys, Flushed(w, literals, unicode).0;
      ys, changed := Flush(w, literals, unicode, ys, changed);
      literals := [];
      var y, c;
      y, unicode, c := NormalizeAst(w, xs[n], unicode);
      ys, changed := ys + [y], changed || c;
      ghost var rest := NormalizedRuns(w, xs[n + 1..], [], unicode).0;
      assert before + (f + [y] + rest) == ys + rest;
    }
    assert xs[|xs|..] == [];
    ys, changed := Flush(w, literals, unicode, ys, changed);
  }

  // --- The flag comes out as it should

  lemma {:induction false} LiteralsKeepFlags(w: World, lits: seq<Lit>, env: Env)
    ensures AfterAll(w, Asts(lits), env) == env
  {
    if lits != [] {
      assert Asts(lits)[1..] == Asts(lits[1..]);
      LiteralsKeepFlags(w, lits[1..], env);
    }
  }

  lemma {:induction false} IntoAstKeepsFlags(w: World, xs: seq<Ast>, env: Env)
    ensures After(w, IntoAst(xs), env) == AfterAll(w, xs, env)
  {
    if |xs| == 1 { assert xs[1..] == []; }
  }

  lemma {:induction false} RunKeepsFlags(w: World, lits: seq<Lit>, env: Env)
    ensures After(w, NormalizeLiterals(w, lits, env.unicode).0, env) == env
  {
    IntoAstKeepsFlags(w, Asts(lits), env);
    LiteralsKeepFlags(w, lits, env);
  }

  /** The rewritten expression leaves the flags as the original does, and the flag that is threaded
      along is the one in force. */
  lemma {:induction false} SameFlagsAfter(w: World, a: Ast, env: Env)
    ensures After(w, Normalized(w, a, env.unicode).0, env) == After(w, a, env)
    ensures Normalized(w, a, env.unicode).1 == After(w, a, env).unicode
    decreases a, 1
  {
    match a {
      case Literal(l) => RunKeepsFlags(w, [l], env);
      case Repetition(_, _, x) => SameFlagsAfter(w, x, env);
      case Alternation(xs) => SameFlagsAfterEach(w, xs, env);
      case Concat(xs) => SameFlagsAfterRuns(w, xs, [], env);
      case _ =>
    }
  }

  lemma {:induction false} SameFlagsAfterEach(w: World, xs: seq<Ast>, env: Env)
    ensures AfterAll(w, NormalizedEach(w, xs, env.unicode).0, env) == AfterAll(w, xs, env)
    ensures NormalizedEach(w, xs, env.unicode).1 == AfterAll(w, xs, env).unicode
    decreases xs, 0
  {
    if xs != [] {
      SameFlagsAfter(w, xs[0], env);
      SameFlagsAfterEach(w, xs[1..], After(w, xs[0], env));
    }
  }

  lemma {:induction false} FlushKeepsFlags(w: World, run: seq<Lit>, ys: seq<Ast>, env: Env)
    ensures AfterAll(w, Flushed(w, run, env.unicode).0 + ys, env) == AfterAll(w, ys, env)
  {
    var f := Flushed(w, run, env.unicode).0;
    if run == [] {
      assert f + ys == ys;
    } else {
      RunKeepsFlags(w, run, env);
      assert (f + ys)[1..] == ys;
    }
  }

  lemma {:induction false} SameFlagsAfterRuns(w: World, xs: seq<Ast>, run: seq<Lit>, env: Env)
    ensures AfterAll(w, NormalizedRuns(w, xs, run, env.unicode).0, env) == AfterAll(w, xs, env)
    ensures NormalizedRuns(w, xs, run, env.unicode).1 == AfterAll(w, xs, env).unicode
    decreases xs, 0
  {
    if xs == [] {
      FlushKeepsFlags(w, run, [], env);
      assert Flushed(w, run, env.unicode).0 + [] == Flushed(w, run, env.unicode).0;
    } else if xs[0].Literal? {
      SameFlagsAfterRuns(w, xs[1..], run + [xs[0].lit], env);
    } else {
      SameFlagsAfter(w, xs[0], env);
      SameFlagsAfterRuns(w, xs[1..], [], After(w, xs[0], env));
      var f, x := Flushed(w, run, env.unicode).0, Normalized(w, xs[0], env.unicode);
      var rest := NormalizedRuns(w, xs[1..], [], x.1).0;
      assert f + [x.0] + rest == f + ([x.0] + rest) && ([x.0] + rest)[1..] == rest;
      FlushKeepsFlags(w, run, [x.0] + rest, env);
    }
  }

  // --- Runs of literals

  lemma {:induction false} AllOfCons(w: World, x: Ast, xs: seq<Ast>, env: Env, i: int, j: int)
    ensures AllOf(w, [x] + xs, env, i, j) <==>
            exists k :: Candidate(k) && Matches(w, x, env, i, k) && AllOf(w, xs, After(w, x, env), k, j)
  {
    assert ([x] + xs)[1..] == xs;
  }

  lemma {:induction false} AllOfOne(w: World, x: Ast, env: Env, i: int, j: int)
    ensures AllOf(w, [x], env, i, j) <==> Matches(w, x, env, i, j)
  {
    AllOfCons(w, x, [], env, i, j);
    assert [x] + [] == [x];
    if Matches(w, x, env, i, j) { assert AllOf(w, [], After(w, x, env), j, j); }
  }

  lemma {:induction false} IntoAstMeans(w: World, xs: seq<Ast>, env: Env, i: int, j: int)
    ensures Matches(w, IntoAst(xs), env, i, j) <==> AllOf(w, xs, env, i, j)
  {
    if |xs| == 1 {
      assert xs == [xs[0]];
      AllOfOne(w, xs[0], env, i, j);
    }
  }

  /** In Unicode mode a literal stands for its character, however it was written. */
  ghost predicate KindFree(w: World) {
    forall l: Lit, env: Env, i, j :: env.unicode ==> (w.lit(l, env, i, j) <==> w.lit(Lit(l.c, 0), env, i, j))
  }

  lemma {:induction false} SpellsByChars(w: World, lits: seq<Lit>, env: Env, i: int, j: int)
    requires KindFree(w) && env.unicode
    ensures Spells(w, lits, env, i, j) <==> Spells(w, Verbatim(Chars(lits)), env, i, j)
  {
    if lits != [] {
      var x, y := Literal(lits[0]), Literal(Lit(lits[0].c, 0));
      var xs, ys := Asts(lits[1..]), Asts(Verbatim(Chars(lits[1..])));
      assert Asts(lits) == [x] + xs && Asts(Verbatim(Chars(lits))) == [y] + ys;
      AllOfCons(w, x, xs, env, i, j);
      AllOfCons(w, y, ys, env, i, j);
      forall k ensures AllOf(w, xs, env, k, j) <==> AllOf(w, ys, env, k, j) {
        SpellsByChars(w, lits[1..], env, k, j);
      }
      forall k ensures Matches(w, x, env, i, k) <==> Matches(w, y, env, i, k) {
        assert w.lit(lits[0], env, i, k) <==> w.lit(Lit(lits[0].c, 0), env, i, k);
      }
    }
  }

  lemma {:induction false} AnyOfCons(w: World, x: Ast, xs: seq<Ast>, env: Env, i: int, j: int)
    requires After(w, x, env) == env
    ensures AnyOf(w, [x] + xs, env, i, j) <==> Matches(w, x, env, i, j) || AnyOf(w, xs, env, i, j)
  {
    assert ([x] + xs)[1..] == xs;
  }

  lemma {:induction false} SpellingMeans(w: World, lits: seq<Lit>, env: Env, i: int, j: int)
    ensures Matches(w, IntoAst(Asts(lits)), env, i, j) <==> Spells(w, lits, env, i, j)
    ensures After(w, IntoAst(Asts(lits)), env) == env
  {
    IntoAstMeans(w, Asts(lits), env, i, j);
    IntoAstKeepsFlags(w, Asts(lits), env);
    LiteralsKeepFlags(w, lits, env);
  }

  /** The rewrite of a run matches exactly the raw, the composed and the decomposed form. */
  lemma {:induction false} RunMeansItsForms(w: World, lits: seq<Lit>, env: Env, i: int, j: int)
    requires KindFree(w) && lits != []
    ensures Matches(w, NormalizeLiterals(w, lits, env.unicode).0, env, i, j) <==> RunFinds(w, lits, env, i, j)
  {
    var raw, nfc, nfd := Chars(lits), w.nfc(Chars(lits)), w.nfd(Chars(lits));
    SpellingMeans(w, lits, env, i, j);
    SpellingMeans(w, Verbatim(nfc), env, i, j);
    SpellingMeans(w, Verbatim(nfd), env, i, j);
    if env.unicode { SpellsByChars(w, lits, env, i, j); }
    if env.unicode && !(raw == nfc && raw == nfd) {
      var x, y, z := IntoAst(Asts(lits)), IntoAst(Asts(Verbatim(nfc))), IntoAst(Asts(Verbatim(nfd)));
      var c := if raw != nfd && nfc != nfd then [z] else [];
      var b := (if raw != nfc then [y] else []) + c;
      assert [x] + (if raw != nfc then [y] else []) + c == [x] + b;
      AnyOfCons(w, x, b, env, i, j);
      if raw != nfc { AnyOfCons(w, y, c, env, i, j); } else { assert b == c; }
      if c != [] { AnyOfCons(w, z, [], env, i, j); assert [z] + [] == [z]; }
      assert Inside(w, PLAIN, env) == env;
    }
  }

  lemma {:induction false} UnchangedRun(w: World, lits: seq<Lit>, env: Env, i: int, j: int)
    requires KindFree(w) && lits != [] && !NormalizeLiterals(w, lits, env.unicode).1
    ensures RunFinds(w, lits, env, i, j) <==> Spells(w, lits, env, i, j)
  {
    if env.unicode { SpellsByChars(w, lits, env, i, j); }
  }

  // --- The rewritten expression matches exactly what a normalized query is meant to find

  lemma {:induction false} MarksMean(w: World, env: Env, i: int, j: int)
    ensures AllOf(w, [MARKS], env, i, j) <==> Marks(w, env, i, j)
  {
    AllOfOne(w, MARKS, env, i, j);
  }

  lemma {:induction false} DotMeans(w: World, env: Env, i: int, j: int)
    ensures Matches(w, DOT_WITH_MARKS, env, i, j) <==>
            exists k :: Candidate(k) && w.dot(env, i, k) && Marks(w, env, k, j)
  {
    assert Inside(w, PLAIN, env) == env;
    assert Matches(w, DOT_WITH_MARKS, env, i, j) <==> AllOf(w, [Dot] + [MARKS], env, i, j) by {
      assert [Dot, MARKS] == [Dot] + [MARKS];
    }
    AllOfCons(w, Dot, [MARKS], env, i, j);
    forall k ensures AllOf(w, [MARKS], env, k, j) <==> Marks(w, env, k, j) {
      MarksMean(w, env, k, j);
    }
  }

  lemma {:induction false} FlushMeans(w: World, run: seq<Lit>, ys: seq<Ast>, env: Env, i: int, j: int)
    requires KindFree(w)
    ensures AllOf(w, Flushed(w, run, env.unicode).0 + ys, env, i, j) <==>
            exists k :: Candidate(k) && RunFinds(w, run, env, i, k) && AllOf(w, ys, env, k, j)
  {
    if run == [] {
      assert [] + ys == ys && Candidate(i);
    } else {
      var x := NormalizeLiterals(w, run, env.unicode).0;
      RunKeepsFlags(w, run, env);
      AllOfCons(w, x, ys, env, i, j);
      forall k ensures Matches(w, x, env, i, k) <==> RunFinds(w, run, env, i, k) {
        RunMeansItsForms(w, run, env, i, k);
      }
    }
  }

  /** For every expression under all flags, the rewrite matches a span if and only if the original, read
      with all forms of its text and with marks after its dots, finds that span. */
  lemma {:induction false} NormalizedMeansFinds(w: World, a: Ast, env: Env, i: int, j: int)
    requires KindFree(w)
    ensures Matches(w, Normalized(w, a, env.unicode).0, env, i, j) <==> Finds(w, a, env, i, j)
    decreases a, 1, 0
  {
    match a {
      case Dot =>
        if env.unicode { DotMeans(w, env, i, j); }
      case Literal(l) =>
        RunMeansItsForms(w, [l], env, i, j);
        if !NormalizeLiterals(w, [l], env.unicode).1 {
          UnchangedRun(w, [l], env, i, j);
          AllOfOne(w, a, env, i, j);
          assert Asts([l]) == [a];
        }
      case Repetition(lo, hi, x) =>
        forall n: nat ensures Times(w, Normalized(w, x, env.unicode).0, env, n, i, j) <==>
                              FindsTimes(w, x, env, n, i, j) {
          TimesMeansFinds(w, x, env, n, i, j);
        }
      case Group(kind, x) =>
        NormalizedMeansFinds(w, x, Inside(w, kind, env), i, j);
      case Alternation(xs) => EachMeansFinds(w, xs, env, i, j);
      case Concat(xs) => RunsMeanFinds(w, xs, [], env, i, j);
      case _ =>
    }
  }

  lemma {:induction false} TimesMeansFinds(w: World, a: Ast, env: Env, n: nat, i: int, j: int)
    requires KindFree(w)
    ensures Times(w, Normalized(w, a, env.unicode).0, env, n, i, j) <==> FindsTimes(w, a, env, n, i, j)
    decreases a, 1, n + 1
  {
    if n > 0 {
      forall k ensures Candidate(k) ==>
        && (Matches(w, Normalized(w, a, env.unicode).0, env, i, k) <==> Finds(w, a, env, i, k))
        && (Times(w, Normalized(w, a, env.unicode).0, env, n - 1, k, j) <==> FindsTimes(w, a, env, n - 1, k, j)) {
        NormalizedMeansFinds(w, a, env, i, k);
        TimesMeansFinds(w, a, env, n - 1, k, j);
      }
    }
  }

  lemma {:induction false} EachMeansFinds(w: World, xs: seq<Ast>, env: Env, i: int, j: int)
    requires KindFree(w)
    ensures AnyOf(w, NormalizedEach(w, xs, env.unicode).0, env, i, j) <==> FindsAny(w, xs, env, i, j)
    decreases xs, 0, 0
  {
    if xs != [] {
      SameFlagsAfter(w, xs[0], env);
      NormalizedMeansFinds(w, xs[0], env, i, j);
      EachMeansFinds(w, xs[1..], After(w, xs[0], env), i, j);
      var x := Normalized(w, xs[0], env.unicode);
      var rest := NormalizedEach(w, xs[1..], x.1).0;
      assert ([x.0] + rest)[1..] == rest;
    }
  }

  lemma {:induction false} RunsMeanFinds(w: World, xs: seq<Ast>, run: seq<Lit>, env: Env, i: int, j: int)
    requires KindFree(w)
    ensures AllOf(w, NormalizedRuns(w, xs, run, env.unicode).0, env, i, j) <==> FindsAll(w, xs, run, env, i, j)
    decreases xs, 0, 0
  {
    var f := Flushed(w, run, env.unicode).0;
    if xs == [] {
      FlushMeans(w, run, [], env, i, j);
      assert f + [] == f && Candidate(j);
    } else if xs[0].Literal? {
      RunsMeanFinds(w, xs[1..], run + [xs[0].lit], env, i, j);
    } else {
      SameFlagsAfter(w, xs[0], env);
      var x, next := Normalized(w, xs[0], env.unicode), After(w, xs[0], env);
      var rest := NormalizedRuns(w, xs[1..], [], x.1).0;
      assert f + [x.0] + rest == f + ([x.0] + rest);
      FlushMeans(w, run, [x.0] + rest, env, i, j);
      forall k ensures Candidate(k) ==> (AllOf(w, [x.0] + rest, env, k, j) <==>
        exists l :: Candidate(l) && Finds(w, xs[0], env, k, l) && FindsAll(w, xs[1..], [], next, l, j)) {
        AllOfCons(w, x.0, rest, env, k, j);
        forall l ensures Candidate(l) ==>
          && (Matches(w, x.0, env, k, l) <==> Finds(w, xs[0], env, k, l))
          && (AllOf(w, rest, next, l, j) <==> FindsAll(w, xs[1..], [], next, l, j)) {
          NormalizedMeansFinds(w, xs[0], env, k, l);
          RunsMeanFinds(w, xs[1..], [], next, l, j);
        }
      }
    }
  }

  // --- It finds at least what the original matches, and no more when nothing was changed

  lemma {:induction false} SpellsAppend(w: World, run: seq<Lit>, ys: seq<Ast>, env: Env, i: int, j: int)
    ensures AllOf(w, Asts(run) + ys, env, i, j) <==>
            exists k :: Candidate(k) && Spells(w, run, env, i, k) && AllOf(w, ys, env, k, j)
  {
    if run == [] {
      assert Asts(run) + ys == ys && Candidate(i);
    } else {
      var x, xs := Literal(run[0]), Asts(run[1..]);
      assert Asts(run) == [x] + xs && Asts(run) + ys == [x] + (xs + ys);
      AllOfCons(w, x, xs + ys, env, i, j);
      forall l {
        SpellsAppend(w, run[1..], ys, env, l, j);
      }
      forall k {
        AllOfCons(w, x, xs, env, i, k);
      }
    }
  }

  /** The rewrite finds whatever the original matches; when it reports no change, nothing else. */
  lemma {:induction false} FindsVersusMatches(w: World, a: Ast, env: Env, i: int, j: int)
    requires KindFree(w)
    ensures Matches(w, a, env, i, j) ==> Finds(w, a, env, i, j)
    ensures !Normalized(w, a, env.unicode).2 ==> (Finds(w, a, env, i, j) ==> Matches(w, a, env, i, j))
    decreases a, 1, 0
  {
    match a {
      case Dot =>
        if env.unicode && w.dot(env, i, j) {
          assert Times(w, Class(MARK), env, 0, j, j) && Candidate(0) && Candidate(j);
        }
      case Literal(l) =>
        AllOfOne(w, a, env, i, j);
        assert Asts([l]) == [a];
        if !NormalizeLiterals(w, [l], env.unicode).1 { UnchangedRun(w, [l], env, i, j); }
      case Repetition(lo, hi, x) =>
        forall n: nat { TimesVersus(w, x, env, n, i, j); }
      case Group(kind, x) => FindsVersusMatches(w, x, Inside(w, kind, env), i, j);
      case Alternation(xs) => EachVersus(w, xs, env, i, j);
      case Concat(xs) =>
        RunsVersus(w, xs, [], env, i, j);
        assert Asts([]) + xs == xs;
      case _ =>
    }
  }

  lemma {:induction false} TimesVersus(w: World, a: Ast, env: Env, n: nat, i: int, j: int)
    requires KindFree(w)
    ensures Times(w, a, env, n, i, j) ==> FindsTimes(w, a, env, n, i, j)
    ensures !Normalized(w, a, env.unicode).2 ==>
      (FindsTimes(w, a, env, n, i, j) ==> Times(w, a, env, n, i, j))
    decreases a, 1, n + 1
  {
    if n > 0 {
      var changed := Normalized(w, a, env.unicode).2;
      forall k ensures Candidate(k) ==>
        && (Matches(w, a, env, i, k) ==> Finds(w, a, env, i, k))
        && (!changed ==> (Finds(w, a, env, i, k) ==> Matches(w, a, env, i, k)))
        && (Times(w, a, env, n - 1, k, j) ==> FindsTimes(w, a, env, n - 1, k, j))
        && (!changed ==> (FindsTimes(w, a, env, n - 1, k, j) ==> Times(w, a, env, n - 1, k, j))) {
        FindsVersusMatches(w, a, env, i, k);
        TimesVersus(w, a, env, n - 1, k, j);
      }
    }
  }

  lemma {:induction false} EachVersus(w: World, xs: seq<Ast>, env: Env, i: int, j: int)
    requires KindFree(w)
    ensures AnyOf(w, xs, env, i, j) ==> FindsAny(w, xs, env, i, j)
    ensures !NormalizedEach(w, xs, env.unicode).2 ==>
      (FindsAny(w, xs, env, i, j) ==> AnyOf(w, xs, env, i, j))
    decreases xs, 0, 0
  {
    if xs != [] {
      SameFlagsAfter(w, xs[0], env);
      FindsVersusMatches(w, xs[0], env, i, j);
      EachVersus(w, xs[1..], After(w, xs[0], env), i, j);
    }
  }

  lemma {:induction false} RunVersus(w: World, run: seq<Lit>, env: Env, i: int, j: int)
    requires KindFree(w)
    ensures Spells(w, run, env, i, j) ==> RunFinds(w, run, env, i, j)
    ensures !Flushed(w, run, env.unicode).1 ==> (RunFinds(w, run, env, i, j) ==> Spells(w, run, env, i, j))
  {
    if run != [] && !Flushed(w, run, env.unicode).1 { UnchangedRun(w, run, env, i, j); }
  }

  lemma {:induction false} RunsVersus(w: World, xs: seq<Ast>, run: seq<Lit>, env: Env, i: int, j: int)
    requires KindFree(w)
    ensures AllOf(w, Asts(run) + xs, env, i, j) ==> FindsAll(w, xs, run, env, i, j)
    ensures !NormalizedRuns(w, xs, run, env.unicode).2 ==>
      (FindsAll(w, xs, run, env, i, j) ==> AllOf(w, Asts(run) + xs, env, i, j))
    decreases xs, 0, 0
  {
    if xs == [] {
      assert Asts(run) + xs == Asts(run);
      RunVersus(w, run, env, i, j);
    } else if xs[0].Literal? {
      assert Asts(run) + xs == Asts(run + [xs[0].lit]) + xs[1..];
      RunsVersus(w, xs[1..], run + [xs[0].lit], env, i, j);
    } else {
      SameFlagsAfter(w, xs[0], env);
      var next := After(w, xs[0], env);
      SpellsAppend(w, run, xs, env, i, j);
      assert xs == [xs[0]] + xs[1..] && Asts([]) + xs[1..] == xs[1..];
      forall k { RunVersus(w, run, env, i, k); }
      forall k { AllOfCons(w, xs[0], xs[1..], env, k, j); }
      forall k, l { FindsVersusMatches(w, xs[0], env, k, l); }
      forall l { RunsVersus(w, xs[1..], [], next, l, j); }
    }
  }

  /** The main result: a normalized query finds everything the query itself would, exactly the composed
      and decomposed forms besides, and precisely the same when it was reported unchanged. */
  lemma {:induction false} NormalizationIsSound(w: World, a: Ast, env: Env, i: int, j: int)
    requires KindFree(w)
    ensures var (r, _, changed) := Normalized(w, a, env.unicode);
      && (Matches(w, a, env, i, j) ==> Matches(w, r, env, i, j))
      && (Matches(w, r, env, i, j) <==> Finds(w, a, env, i, j))
      && (!changed ==> (Matches(w, r, env, i, j) <==> Matches(w, a, env, i, j)))
  {
    NormalizedMeansFinds(w, a, env, i, j);
    FindsVersusMatches(w, a, env, i, j);
  }

  // --- When nothing changes

  /** No flag inside turns Unicode mode on. */
  predicate StaysInBytes(a: Ast)
    decreases a, 1
  {
    match a
    case Flags(f) => f.unicode != Some(true)
    case Repetition(_, _, x) => StaysInBytes(x)
    case Group(kind, x) => (kind.NonCapturing? ==> kind.flags.unicode != Some(true)) && StaysInBytes(x)
    case Alternation(xs) => forall n :: 0 <= n < |xs| ==> StaysInBytes(xs[n])
    case Concat(xs) => forall n :: 0 <= n < |xs| ==> StaysInBytes(xs[n])
    case _ => true
  }

  /** Byte mode: the expression is left as it is, so by the main result it keeps its meaning. */
  lemma {:induction false} BytesUnchanged(w: World, a: Ast)
    requires StaysInBytes(a)
    ensures var (_, u, changed) := Normalized(w, a, false); !u && !changed
    decreases a, 1
  {
    match a {
      case Repetition(_, _, x) => BytesUnchanged(w, x);
      case Group(_, x) => BytesUnchanged(w, x);
      case Alternation(xs) => BytesUnchangedEach(w, xs);
      case Concat(xs) => BytesUnchangedRuns(w, xs, []);
      case _ =>
    }
  }

  lemma {:induction false} BytesUnchangedEach(w: World, xs: seq<Ast>)
    requires forall n :: 0 <= n < |xs| ==> StaysInBytes(xs[n])
    ensures var (_, u, changed) := NormalizedEach(w, xs, false); !u && !changed
    decreases xs, 0
  {
    if xs != [] {
      BytesUnchanged(w, xs[0]);
      BytesUnchangedEach(w, xs[1..]);
    }
  }

  lemma {:induction false} BytesUnchangedRuns(w: World, xs: seq<Ast>, run: seq<Lit>)
    requires forall n :: 0 <= n < |xs| ==> StaysInBytes(xs[n])
    ensures var (_, u, changed) := NormalizedRuns(w, xs, run, false); !u && !changed
    decreases xs, 0
  {
    if xs != [] {
      BytesUnchanged(w, xs[0]);
      BytesUnchangedRuns(w, xs[1..], if xs[0].Literal? then run + [xs[0].lit] else []);
    }
  }

  predicate Ascii(text: seq<int>) { forall n :: 0 <= n < |text| ==> 0 <= text[n] < 128 }

  ghost predicate AsciiIsNormal(w: World) {
    forall text :: Ascii(text) ==> w.nfc(text) == text && w.nfd(text) == text
  }

  /** What the quick test on the text lets through untouched: ASCII literals and no dot. */
  predicate Plain(a: Ast)
    decreases a, 1
  {
    match a
    case Dot => false
    case Literal(l) => 0 <= l.c < 128
    case Repetition(_, _, x) => Plain(x)
    case Group(_, x) => Plain(x)
    case Alternation(xs) => forall n :: 0 <= n < |xs| ==> Plain(xs[n])
    case Concat(xs) => forall n :: 0 <= n < |xs| ==> Plain(xs[n])
    case _ => true
  }

  /** Skipping the rewrite for such an expression loses nothing: it would have changed nothing. */
  lemma {:induction false} PlainUnchanged(w: World, a: Ast, unicode: bool)
    requires AsciiIsNormal(w) && Plain(a)
    ensures !Normalized(w, a, unicode).2
    decreases a, 1
  {
    match a {
      case Literal(l) => assert Ascii(Chars([l]));
      case Repetition(_, _, x) => PlainUnchanged(w, x, unicode);
      case Group(kind, x) => PlainUnchanged(w, x, if kind.NonCapturing? then Unicode(kind.flags, unicode) else unicode);
      case Alternation(xs) => PlainUnchangedEach(w, xs, unicode);
      case Concat(xs) => PlainUnchangedRuns(w, xs, [], unicode);
      case _ =>
    }
  }

  lemma {:induction false} PlainUnchangedEach(w: World, xs: seq<Ast>, unicode: bool)
    requires AsciiIsNormal(w) && forall n :: 0 <= n < |xs| ==> Plain(xs[n])
    ensures !NormalizedEach(w, xs, unicode).2
    decreases xs, 0
  {
    if xs != [] {
      PlainUnchanged(w, xs[0], unicode);
      PlainUnchangedEach(w, xs[1..], Normalized(w, xs[0], unicode).1);
    }
  }

  lemma {:induction false} PlainUnchangedRuns(w: World, xs: seq<Ast>, run: seq<Lit>, unicode: bool)
    requires AsciiIsNormal(w) && Ascii(Chars(run)) && forall n :: 0 <= n < |xs| ==> Plain(xs[n])
    ensures !NormalizedRuns(w, xs, run, unicode).2
    decreases xs, 0
  {
    if xs != [] {
      assert Plain(xs[0]);
      if xs[0].Literal? {
        assert Chars(run + [xs[0].lit]) == Chars(run) + [xs[0].lit.c];
        PlainUnchangedRuns(w, xs[1..], run + [xs[0].lit], unicode);
      } else {
        PlainUnchanged(w, xs[0], unicode);
        PlainUnchangedRuns(w, xs[1..], [], Normalized(w, xs[0], unicode).1);
      }
    }
  }
}
