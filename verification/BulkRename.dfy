/** The bulk rename planner of yazi-actor/src/mgr/bulk_rename.rs and the loop that carries a plan
    out. Paths are names; a file system maps the existing names to their contents. */
module BulkRename {
  type Name = string

  datatype Pair = Pair(from: Name, to: Name)

  ghost predicate DistinctSources(ps: seq<Pair>) {
    forall i, j :: 0 <= i < j < |ps| ==> ps[i].from != ps[j].from
  }

  ghost predicate DistinctTargets(ps: seq<Pair>) {
    forall i, j :: 0 <= i < j < |ps| ==> ps[i].to != ps[j].to
  }

  function Sources(ps: seq<Pair>): set<Name> { set p | p in ps :: p.from }

  function Targets(ps: seq<Pair>): set<Name> { set p | p in ps :: p.to }

  /** The pairs whose source is in k, in their order. */
  function Keep(ps: seq<Pair>, k: set<Name>): seq<Pair> {
    if ps == [] then []
    else (if ps[0].from in k then [ps[0]] else []) + Keep(ps[1..], k)
  }

  /** The sources that some rename of ps wants to take as its target. */
  function Blocked(ps: seq<Pair>): set<Name> { Sources(ps) * Targets(ps) }

  /** The renames of ps whose source nobody is waiting for, and the others. */
  function Free(ps: seq<Pair>): seq<Pair> { Keep(ps, Sources(ps) - Targets(ps)) }

  function Stuck(ps: seq<Pair>): seq<Pair> { Keep(ps, Blocked(ps)) }

  // --- The plan: peel off the free renames round by round

  lemma {:induction false} KeepMembers(ps: seq<Pair>, k: set<Name>)
    ensures forall p :: p in Keep(ps, k) <==> p in ps && p.from in k
  {
    if ps != [] { KeepMembers(ps[1..], k); }
  }

  lemma {:induction false} KeepDistinctSources(ps: seq<Pair>, k: set<Name>)
    requires DistinctSources(ps)
    ensures DistinctSources(Keep(ps, k))
  {
    if ps != [] {
      KeepDistinctSources(ps[1..], k);
      KeepMembers(ps[1..], k);
      assert forall p :: p in ps[1..] ==> p.from != ps[0].from;
    }
  }

  lemma {:induction false} KeepDistinctTargets(ps: seq<Pair>, k: set<Name>)
    requires DistinctTargets(ps)
    ensures DistinctTargets(Keep(ps, k))
  {
    if ps != [] {
      KeepDistinctTargets(ps[1..], k);
      KeepMembers(ps[1..], k);
      assert forall p :: p in ps[1..] ==> p.to != ps[0].to;
    }
  }

  lemma {:induction false} KeepShorter(ps: seq<Pair>, k: set<Name>)
    ensures |Keep(ps, k)| <= |ps|
  {
    if ps != [] { KeepShorter(ps[1..], k); }
  }

  lemma {:induction false} KeepFewer(ps: seq<Pair>, k: set<Name>)
    requires exists i :: 0 <= i < |ps| && ps[i].from !in k
    ensures |Keep(ps, k)| < |ps|
  {
    KeepShorter(ps[1..], k);
    if ps[0].from in k {
      var i :| 0 <= i < |ps| && ps[i].from !in k;
      assert ps[1..][i - 1].from !in k;
      KeepFewer(ps[1..], k);
    }
  }

  lemma {:induction false} StuckFewer(ps: seq<Pair>)
    requires Free(ps) != []
    ensures |Stuck(ps)| < |ps|
  {
    KeepMembers(ps, Sources(ps) - Targets(ps));
    var p := Free(ps)[0];
    assert p in Free(ps) && p in ps && p.from !in Blocked(ps);
    KeepFewer(ps, Blocked(ps));
  }

  function Peeled(ps: seq<Pair>): seq<Pair>
    decreases |ps|
  {
    if Free(ps) == [] then [] else StuckFewer(ps); Peeled(Stuck(ps)) + Free(ps)
  }

  function Core(ps: seq<Pair>): seq<Pair>
    decreases |ps|
  {
    if Free(ps) == [] then ps else StuckFewer(ps); Core(Stuck(ps))
  }

  function Plan(ps: seq<Pair>): seq<Pair> { Peeled(ps) + Core(ps) }

  lemma {:induction false} KeepFirst(ps: seq<Pair>, k: set<Name>)
    requires ps != []
    ensures ps[0].from in k ==> multiset(Keep(ps, k)) == multiset{ps[0]} + multiset(Keep(ps[1..], k))
    ensures ps[0].from !in k ==> Keep(ps, k) == Keep(ps[1..], k)
  {}

  lemma {:induction false} KeepSplits(ps: seq<Pair>, j: set<Name>, k: set<Name>)
    requires j !! k && Sources(ps) <= j + k
    ensures multiset(Keep(ps, j)) + multiset(Keep(ps, k)) == multiset(ps)
  {
    if ps != [] {
      assert ps[0].from in Sources(ps);
      assert Sources(ps[1..]) <= Sources(ps);
      KeepSplits(ps[1..], j, k);
      KeepFirst(ps, j);
      KeepFirst(ps, k);
      assert ps == [ps[0]] + ps[1..];
    }
  }

  /** The plan is a rearrangement of the requested renames. */
  lemma {:induction false} PlanIsPermutation(ps: seq<Pair>)
    ensures multiset(Plan(ps)) == multiset(ps)
    decreases |ps|
  {
    if Free(ps) != [] {
      StuckFewer(ps);
      PlanIsPermutation(Stuck(ps));
      KeepSplits(ps, Sources(ps) - Targets(ps), Blocked(ps));
      assert Plan(ps) == Peeled(Stuck(ps)) + Free(ps) + Core(Stuck(ps));
    } else {
      assert Plan(ps) == ps;
    }
  }

  lemma {:induction false} PartsComeFrom(ps: seq<Pair>)
    ensures forall p :: p in ps <==> p in Peeled(ps) || p in Core(ps)
    decreases |ps|
  {
    if Free(ps) != [] {
      StuckFewer(ps);
      PartsComeFrom(Stuck(ps));
      KeepMembers(ps, Sources(ps) - Targets(ps));
      KeepMembers(ps, Blocked(ps));
    }
  }

  /** No peeled rename's source is the target of a rename planned at or before it, nor of a rename
      left in the core. */
  lemma {:induction false} PeeledOrder(ps: seq<Pair>)
    ensures forall i, j :: 0 <= i <= j < |Peeled(ps)| ==> Peeled(ps)[i].to != Peeled(ps)[j].from
    ensures forall p, q :: p in Core(ps) && q in Peeled(ps) ==> p.to != q.from
    decreases |ps|
  {
    if Free(ps) != [] {
      StuckFewer(ps);
      PeeledOrder(Stuck(ps));
      PartsComeFrom(ps);
      KeepMembers(ps, Sources(ps) - Targets(ps));
      var a, b := Peeled(Stuck(ps)), Free(ps);
      assert forall p, q :: p in ps && q in b ==> p.to in Targets(ps) && q.from !in Targets(ps);
      forall i, j | 0 <= i <= j < |a + b| ensures (a + b)[i].to != (a + b)[j].from {
        assert (a + b)[i] in Peeled(ps);
        if j >= |a| { assert (a + b)[j] in b; }
      }
    }
  }

  // --- What is left are the cycles, in input order

  /** Following renames backwards k times from b ends at a. */
  ghost predicate Leads(ps: seq<Pair>, a: Name, b: Name, k: nat)
    decreases k
  {
    if k == 0 then a == b else exists q :: q in ps && q.to == b && Leads(ps, a, q.from, k - 1)
  }

  ghost predicate OnCycle(ps: seq<Pair>, p: Pair) {
    exists k: nat :: Leads(ps, p.to, p.from, k)
  }

  ghost predicate Awaited(s: set<Pair>, n: Name) { exists q :: q in s && q.to == n }

  lemma {:induction false} PredecessorsStay(ps: seq<Pair>, s: set<Pair>)
    requires forall p :: p in s ==> p in ps
    requires forall p :: p in s ==> Awaited(s, p.from)
    ensures forall p :: p in s ==> p in Core(ps)
    decreases |ps|
  {
    if Free(ps) != [] {
      StuckFewer(ps);
      KeepMembers(ps, Blocked(ps));
      forall p | p in s ensures p in Stuck(ps) {
        assert Awaited(s, p.from);
        var q :| q in s && q.to == p.from;
        assert q in ps && p.from in Blocked(ps);
      }
      PredecessorsStay(Stuck(ps), s);
    }
  }

  lemma {:induction false} CyclesAreInCore(ps: seq<Pair>, p: Pair)
    requires p in ps && OnCycle(ps, p)
    ensures p in Core(ps)
  {
    var s := set q | q in ps && exists k: nat :: Leads(ps, p.to, q.from, k);
    forall x | x in s ensures Awaited(s, x.from) {
      var k: nat :| Leads(ps, p.to, x.from, k);
      if k == 0 {
        assert p in s;
      } else {
        var q :| q in ps && q.to == x.from && Leads(ps, p.to, q.from, k - 1);
        assert q in s;
      }
    }
    PredecessorsStay(ps, s);
  }

  lemma {:induction false} CoreIsBlocked(ps: seq<Pair>)
    ensures Free(Core(ps)) == []
    ensures DistinctSources(ps) ==> DistinctSources(Core(ps))
    decreases |ps|
  {
    if Free(ps) != [] {
      StuckFewer(ps);
      if DistinctSources(ps) { KeepDistinctSources(ps, Blocked(ps)); }
      CoreIsBlocked(Stuck(ps));
    }
  }

  /** Renames that wait for each other in a row, each the predecessor of the one before. */
  ghost predicate Walk(c: seq<Pair>, w: seq<Pair>) {
    && (forall i :: 0 <= i < |w| ==> w[i] in c)
    && (forall i :: 0 < i < |w| ==> w[i].to == w[i - 1].from)
    && (forall i, j :: 0 <= i < j < |w| ==> w[i] != w[j])
  }

  lemma {:induction false} WalkLeads(c: seq<Pair>, w: seq<Pair>, n: nat)
    requires n < |w| && Walk(c, w) && w[0].to == w[|w| - 1].from
    ensures Leads(c, w[0].to, w[|w| - 1 - n].from, n)
  {
    if n > 0 {
      WalkLeads(c, w, n - 1);
      assert w[|w| - n] in c && w[|w| - n].to == w[|w| - 1 - n].from;
    }
  }

  lemma {:induction false} WalkGoesOn(c: seq<Pair>, w: seq<Pair>, q: Pair)
    requires DistinctSources(c) && Walk(c, w) && w != [] && q in c && q.to == w[|w| - 1].from
    requires !OnCycle(c, w[0])
    ensures q !in w
  {
    if i: nat :| i < |w| && w[i] == q {
      if i == 0 {
        WalkLeads(c, w, |w| - 1);
      } else {
        SameSource(c, w[i - 1], w[|w| - 1]);
      }
    }
  }

  /** Without a cycle through p one can walk backwards for as long as one likes. */
  lemma {:induction false} LongWalk(c: seq<Pair>, p: Pair, n: nat) returns (w: seq<Pair>)
    requires DistinctSources(c) && Free(c) == [] && p in c && !OnCycle(c, p)
    ensures Walk(c, w) && |w| == n + 1 && w[0] == p
  {
    if n == 0 { return [p]; }
    w := LongWalk(c, p, n - 1);
    var q := NobodyIsFree(c, w[n - 1]);
    WalkGoesOn(c, w, q);
    w := w + [q];
  }

  lemma {:induction false} NobodyIsFree(c: seq<Pair>, p: Pair) returns (q: Pair)
    requires Free(c) == [] && p in c
    ensures q in c && q.to == p.from
  {
    KeepMembers(c, Sources(c) - Targets(c));
    assert p !in Free(c);
    q :| q in c && q.to == p.from;
  }

  lemma {:induction false} SameSource(c: seq<Pair>, p: Pair, q: Pair)
    requires DistinctSources(c) && p in c && q in c && p.from == q.from
    ensures p == q
  {}

  lemma {:induction false} WalkIsShort(c: seq<Pair>, w: seq<Pair>)
    requires forall i :: 0 <= i < |w| ==> w[i] in c
    requires forall i, j :: 0 <= i < j < |w| ==> w[i] != w[j]
    ensures |w| <= |c|
  {
    if w != [] {
      var i :| 0 <= i < |c| && c[i] == w[0];
      WalkIsShort(c[..i] + c[i + 1..], w[1..]);
    }
  }

  lemma {:induction false} CoreIsOnCycles(c: seq<Pair>, p: Pair)
    requires DistinctSources(c) && Free(c) == [] && p in c
    ensures OnCycle(c, p)
  {
    if !OnCycle(c, p) {
      var w := LongWalk(c, p, |c|);
      WalkIsShort(c, w);
    }
  }

  lemma {:induction false} LeadsInMore(c: seq<Pair>, ps: seq<Pair>, a: Name, b: Name, k: nat)
    requires (forall p :: p in c ==> p in ps) && Leads(c, a, b, k)
    ensures Leads(ps, a, b, k)
    decreases k
  {
    if k > 0 {
      var q :| q in c && q.to == b && Leads(c, a, q.from, k - 1);
      LeadsInMore(c, ps, a, q.from, k - 1);
    }
  }

  lemma {:induction false} KeepKeep(ps: seq<Pair>, j: set<Name>, k: set<Name>)
    requires k <= j
    ensures Keep(Keep(ps, j), k) == Keep(ps, k)
  {
    if ps != [] {
      KeepKeep(ps[1..], j, k);
      if ps[0].from in j {
        assert Keep(ps, j)[0] == ps[0] && Keep(ps, j)[1..] == Keep(ps[1..], j);
      } else {
        assert Keep(ps, j) == Keep(ps[1..], j) && Keep(ps, k) == Keep(ps[1..], k);
      }
    }
  }

  lemma {:induction false} KeepAll(ps: seq<Pair>, k: set<Name>)
    requires Sources(ps) <= k
    ensures Keep(ps, k) == ps
  {
    if ps != [] {
      assert ps[0].from in Sources(ps);
      assert forall p :: p in ps[1..] ==> p in ps;
      KeepAll(ps[1..], k);
    }
  }

  lemma {:induction false} CoreIsKept(ps: seq<Pair>)
    ensures Core(ps) == Keep(ps, Sources(Core(ps)))
    decreases |ps|
  {
    if Free(ps) == [] {
      KeepAll(ps, Sources(ps));
    } else {
      StuckFewer(ps);
      CoreIsKept(Stuck(ps));
      PartsComeFrom(Stuck(ps));
      KeepMembers(ps, Blocked(ps));
      KeepKeep(ps, Blocked(ps), Sources(Core(ps)));
    }
  }

  /** The block at the end of the plan holds exactly the renames on cycles, in input order. */
  lemma {:induction false} CoreIsTheCycles(ps: seq<Pair>)
    requires DistinctSources(ps)
    ensures forall p :: p in ps ==> (p in Core(ps) <==> OnCycle(ps, p))
    ensures Core(ps) == Keep(ps, Sources(Core(ps)))
  {
    CoreIsKept(ps);
    CoreIsBlocked(ps);
    PartsComeFrom(ps);
    forall p | p in ps ensures p in Core(ps) <==> OnCycle(ps, p) {
      if OnCycle(ps, p) { CyclesAreInCore(ps, p); }
      if p in Core(ps) {
        CoreIsOnCycles(Core(ps), p);
        var k: nat :| Leads(Core(ps), p.to, p.from, k);
        LeadsInMore(Core(ps), ps, p.to, p.from, k);
      }
    }
  }

  /** With distinct targets, no peeled rename takes the place of a file that a cycle still holds. */
  lemma {:induction false} PeeledAvoidsCore(ps: seq<Pair>, p: Pair, q: Pair)
    requires DistinctTargets(ps) && p in Peeled(ps) && q in Core(ps)
    ensures p.to != q.from
  {
    CoreIsBlocked(ps);
    PartsComeFrom(ps);
    PeeledOrder(ps);
    var r := NobodyIsFree(Core(ps), q);
    if p in Core(ps) { var r' := NobodyIsFree(Core(ps), p); }
    assert r in ps && p in ps && r != p;
  }

  // --- The planner's loops

  function Rev(s: seq<Pair>): (r: seq<Pair>)
    ensures |r| == |s|
  {
    seq(|s|, i requires 0 <= i < |s| => s[|s| - 1 - i])
  }

  lemma {:induction false} RevAppend(a: seq<Pair>, b: seq<Pair>)
    ensures Rev(a + b) == Rev(b) + Rev(a)
  {}

  lemma {:induction false} RevRev(s: seq<Pair>)
    ensures Rev(Rev(s)) == s
  {}

  // --- The order when targets may collide

  /** The pairs whose source is not flagged, and the others. */
  function Chosen(ps: seq<Pair>, flags: set<Name>): seq<Pair> { Keep(ps, Sources(ps) - flags) }

  function Others(ps: seq<Pair>, flags: set<Name>): seq<Pair> { Keep(ps, Sources(ps) * flags) }

  lemma {:induction false} OthersFewer(ps: seq<Pair>, flags: set<Name>)
    requires Chosen(ps, flags) != []
    ensures |Others(ps, flags)| < |ps|
  {
    KeepMembers(ps, Sources(ps) - flags);
    var p := Chosen(ps, flags)[0];
    assert p in Chosen(ps, flags) && p in ps && p.from !in Sources(ps) * flags;
    KeepFewer(ps, Sources(ps) * flags);
  }

  /** Round by round: the chosen go last, and every target of theirs loses its flag, whoever else wants it. */
  function Lead(ps: seq<Pair>, flags: set<Name>): seq<Pair>
    decreases |ps|
  {
    if Chosen(ps, flags) == [] then []
    else
      OthersFewer(ps, flags);
      Lead(Others(ps, flags), flags - Targets(Chosen(ps, flags))) + Chosen(ps, flags)
  }

  function Last(ps: seq<Pair>, flags: set<Name>): seq<Pair>
    decreases |ps|
  {
    if Chosen(ps, flags) == [] then ps
    else
      OthersFewer(ps, flags);
      Last(Others(ps, flags), flags - Targets(Chosen(ps, flags)))
  }

  function Order(ps: seq<Pair>): seq<Pair> { Lead(ps, Blocked(ps)) + Last(ps, Blocked(ps)) }

  lemma {:induction false} LeadAndLastAreAll(ps: seq<Pair>, flags: set<Name>)
    ensures multiset(Lead(ps, flags)) + multiset(Last(ps, flags)) == multiset(ps)
    decreases |ps|
  {
    if Chosen(ps, flags) != [] {
      OthersFewer(ps, flags);
      LeadAndLastAreAll(Others(ps, flags), flags - Targets(Chosen(ps, flags)));
      KeepSplits(ps, Sources(ps) - flags, Sources(ps) * flags);
    }
  }

  /** For distinct targets this is the plan. */
  lemma {:induction false} LeadIsPeeled(ps: seq<Pair>)
    requires DistinctTargets(ps)
    ensures Lead(ps, Blocked(ps)) == Peeled(ps) && Last(ps, Blocked(ps)) == Core(ps)
    decreases |ps|
  {
    assert Sources(ps) - Blocked(ps) == Sources(ps) - Targets(ps) && Sources(ps) * Blocked(ps) == Blocked(ps);
    if Free(ps) != [] {
      StuckFewer(ps);
      KeepDistinctTargets(ps, Blocked(ps));
      LeadIsPeeled(Stuck(ps));
      StuckFlags(ps);
    }
  }

  /** A flag has one cause then, so clearing it when that cause leaves keeps the flags right. */
  lemma {:induction false} StuckFlags(ps: seq<Pair>)
    requires DistinctTargets(ps)
    ensures Blocked(ps) - Targets(Free(ps)) == Blocked(Stuck(ps))
  {
    var k, f := Sources(ps), Sources(ps) - Targets(ps);
    KeepSources(ps, Blocked(ps));
    KeepAll(ps, k);
    assert k - f == Blocked(ps);
    forall n | n in Blocked(ps) ensures n in Targets(Stuck(ps)) <==> n !in Targets(Free(ps)) {
      FlagsStayRight(ps, k, f, n);
    }
  }

  /** A later rename onto the source of the j-th. */
  ghost predicate WantedLater(l: seq<Pair>, j: nat) { j < |l| && exists i :: j < i < |l| && l[i].to == l[j].from }

  lemma {:induction false} FreedByTheNext(a: seq<Pair>, free: seq<Pair>, j: nat)
    requires j < |a| && (WantedLater(a, j) || a[j].from in Targets(free))
    ensures WantedLater(a + free, j)
  {
    var l := a + free;
    if WantedLater(a, j) {
      var i :| j < i < |a| && a[i].to == a[j].from;
      assert l[i] == a[i];
    } else {
      var p :| p in free && p.to == a[j].from;
      var i :| 0 <= i < |free| && free[i] == p;
      assert l[|a| + i] == p;
    }
  }

  lemma {:induction false} WantedSourcesGoFirst(ps: seq<Pair>, flags: set<Name>, j: nat)
    requires j < |Lead(ps, flags)|
    ensures Lead(ps, flags)[j].from in flags ==> WantedLater(Lead(ps, flags), j)
    decreases |ps|
  {
    var free, rest := Chosen(ps, flags), Others(ps, flags);
    OthersFewer(ps, flags);
    var left := flags - Targets(free);
    var a := Lead(rest, left);
    LeadUnfolds(ps, flags);
    if j >= |a| {
      KeepMembers(ps, Sources(ps) - flags);
      assert (a + free)[j] in free;
    } else {
      WantedSourcesGoFirst(rest, left, j);
      if a[j].from in flags { FreedByTheNext(a, free, j); }
    }
  }

  /** What holds even when targets collide: a rename outside the final block whose source is wanted comes
      before some rename that wants it. */
  lemma {:induction false} SomeWantingRenameComesLater(ps: seq<Pair>, j: nat)
    requires j < |Lead(ps, Blocked(ps))| && Order(ps)[j].from in Targets(ps)
    ensures exists i :: j < i < |Order(ps)| && Order(ps)[i].to == Order(ps)[j].from
  {
    var l := Lead(ps, Blocked(ps));
    assert l[j] in multiset(l);
    LeadAndLastAreAll(ps, Blocked(ps));
    assert l[j] in multiset(ps);
    WantedSourcesGoFirst(ps, Blocked(ps), j);
    var i :| j < i < |l| && l[i].to == l[j].from;
    assert Order(ps)[i] == l[i];
  }

  /** But not before all: of two renames onto c the one peeled first clears the flag, so the other is planned
      before c is moved away. */
  lemma {:induction false} CollisionBreaksTheOrder(a: Name, b: Name, c: Name, d: Name, x: Name)
    requires AllDiffer([a, b, c, d, x])
    ensures var ps := [Pair(a, c), Pair(x, b), Pair(b, c), Pair(c, d)];
      DistinctSources(ps) && Order(ps) == [Pair(b, c), Pair(c, d), Pair(a, c), Pair(x, b)]
  {
    var ps := [Pair(a, c), Pair(x, b), Pair(b, c), Pair(c, d)];
    var early, late := [Pair(a, c), Pair(x, b)], [Pair(b, c), Pair(c, d)];
    var n := [a, b, c, d, x];
    assert n[0] == a && n[1] == b && n[2] == c && n[3] == d && n[4] == x;
    FirstRound(ps, early, late);
    LateRound(late, {b, c} - Targets(early));
    LeadUnfolds(ps, Blocked(ps));
    assert late + early == [Pair(b, c), Pair(c, d), Pair(a, c), Pair(x, b)];
  }

  ghost predicate AllDiffer(ns: seq<Name>) { forall i, j :: 0 <= i < j < |ns| ==> ns[i] != ns[j] }

  lemma {:induction false} FirstRound(ps: seq<Pair>, early: seq<Pair>, late: seq<Pair>)
    requires |ps| == 4 && early == [ps[0], ps[1]] && late == [ps[2], ps[3]] && DistinctSources(ps)
    requires ps[0].to == ps[2].to == ps[3].from && ps[1].to == ps[2].from
    requires ps[3].to !in Sources(ps) && ps[0].from !in Targets(ps) && ps[1].from !in Targets(ps)
    ensures Blocked(ps) == {ps[2].from, ps[3].from} == Blocked(ps) * Targets(early)
    ensures Chosen(ps, Blocked(ps)) == early && Others(ps, Blocked(ps)) == late
  {
    var k := {ps[2].from, ps[3].from};
    assert ps == [ps[0], ps[1], ps[2], ps[3]];
    assert Sources(ps) == {ps[0].from, ps[1].from, ps[2].from, ps[3].from};
    assert Targets(ps) == {ps[0].to, ps[1].to, ps[3].to};
    assert Blocked(ps) == k && Sources(ps) - k == {ps[0].from, ps[1].from} && Sources(ps) * k == k;
    KeepOneByOne(ps, {ps[0].from, ps[1].from});
    KeepOneByOne(ps, k);
  }

  lemma {:induction false} KeepOneByOne(ps: seq<Pair>, k: set<Name>)
    requires |ps| == 4
    ensures Keep(ps, k) == (if ps[0].from in k then [ps[0]] else []) + ((if ps[1].from in k then [ps[1]] else []) +
                           ((if ps[2].from in k then [ps[2]] else []) + (if ps[3].from in k then [ps[3]] else [])))
  {
    var one, two, three := ps[1..], ps[2..], ps[3..];
    assert one[1..] == two && two[1..] == three && three[1..] == [];
    assert Keep(three, k) == (if ps[3].from in k then [ps[3]] else []) + [];
    assert Keep(two, k) == (if ps[2].from in k then [ps[2]] else []) + Keep(three, k);
    assert Keep(one, k) == (if ps[1].from in k then [ps[1]] else []) + Keep(two, k);
  }

  lemma {:induction false} LateRound(late: seq<Pair>, flags: set<Name>)
    requires late != [] && Sources(late) !! flags
    ensures Lead(late, flags) == late && Last(late, flags) == []
  {
    assert Sources(late) - flags == Sources(late) && Sources(late) * flags == {};
    KeepAll(late, Sources(late));
    NothingKept(late);
    OthersFewer(late, flags);
    assert Chosen([], flags - Targets(late)) == [];
    assert [] + late == late;
  }

  /** Renames that do not get in each other's way stay in the order they were asked for. */
  lemma {:induction false} IndependentKeepTheirOrder(ps: seq<Pair>)
    requires Sources(ps) !! Targets(ps)
    ensures Order(ps) == ps
  {
    assert Blocked(ps) == {};
    if ps != [] {
      LateRound(ps, {});
      assert ps + [] == ps;
    }
  }

  // --- The final block

  /** Of the flagged names, every rename onto them is still there. */
  ghost predicate Guarded(ps: seq<Pair>, rem: seq<Pair>, flags: set<Name>) {
    && (forall p :: p in rem ==> p in ps)
    && (forall n :: n in flags ==> n in Targets(ps))
    && (forall q :: q in ps && q.to in flags ==> q in rem)
  }

  /** So it is with the whole block: what wants its sources is in it. */
  lemma {:induction false} LastIsSealed(ps: seq<Pair>, rem: seq<Pair>, flags: set<Name>)
    requires Guarded(ps, rem, flags)
    ensures forall p :: p in Last(rem, flags) ==> p in ps && p.from in Targets(ps)
    ensures forall p, q :: p in Last(rem, flags) && q in ps && q.to == p.from ==> q in Last(rem, flags)
    decreases |rem|
  {
    var free, rest := Chosen(rem, flags), Others(rem, flags);
    KeepMembers(rem, Sources(rem) - flags);
    KeepMembers(rem, Sources(rem) * flags);
    if free == [] {
      forall p | p in rem ensures p.from in flags { assert p !in free; }
    } else {
      OthersFewer(rem, flags);
      forall q | q in ps && q.to in flags - Targets(free) ensures q in rest { assert q !in free; }
      LastIsSealed(ps, rest, flags - Targets(free));
    }
  }

  /** Renames that only wait for each other stay to the end. */
  lemma {:induction false} SealedStays(rem: seq<Pair>, flags: set<Name>, s: set<Pair>)
    requires forall p :: p in s ==> p in rem && p.from in flags
    requires forall p, q :: p in s && q in rem && q.to == p.from ==> q in s
    ensures forall p :: p in s ==> p in Last(rem, flags)
    decreases |rem|
  {
    var free, rest := Chosen(rem, flags), Others(rem, flags);
    KeepMembers(rem, Sources(rem) - flags);
    KeepMembers(rem, Sources(rem) * flags);
    if free != [] {
      OthersFewer(rem, flags);
      forall p | p in s ensures p in rest && p.from !in Targets(free) {
        assert p.from in Sources(rem);
        forall q | q in free ensures q.to != p.from { assert q in rem; }
      }
      SealedStays(rest, flags - Targets(free), s);
    }
  }

  /** The chain of renames that starts with q reaches p. */
  ghost predicate Upstream(ps: seq<Pair>, q: Pair, p: Pair) { exists k: nat :: Leads(ps, q.to, p.from, k) }

  /** All that want a source of c are in c. */
  ghost predicate Sealed(ps: seq<Pair>, c: seq<Pair>) {
    forall p, q :: p in c && q in ps && q.to == p.from ==> q in c
  }

  lemma {:induction false} UpstreamIsSealed(ps: seq<Pair>, c: seq<Pair>, q: Pair, p: Pair, k: nat)
    requires Sealed(ps, c) && q in ps && p in c && Leads(ps, q.to, p.from, k)
    ensures q in c
    decreases k
  {
    if k > 0 {
      var r :| r in ps && r.to == p.from && Leads(ps, q.to, r.from, k - 1);
      UpstreamIsSealed(ps, c, q, r, k - 1);
    }
  }

  lemma {:induction false} LastIsOnCycles(ps: seq<Pair>, p: Pair)
    requires DistinctSources(ps) && p in Last(ps, Blocked(ps))
    ensures p in ps && OnCycle(ps, p)
  {
    var c := Last(ps, Blocked(ps));
    LastIsSealed(ps, ps, Blocked(ps));
    LastIsKept(ps, Blocked(ps));
    KeepDistinctSources(ps, Sources(c));
    forall q | q in c ensures q.from in Targets(c) {
      var r :| r in ps && r.to == q.from;
      assert r in c;
    }
    assert Sources(c) - Targets(c) == {};
    NothingKept(c);
    CoreIsOnCycles(c, p);
    var k: nat :| Leads(c, p.to, p.from, k);
    LeadsInMore(c, ps, p.to, p.from, k);
  }

  lemma {:induction false} LastIsKept(ps: seq<Pair>, flags: set<Name>)
    ensures Last(ps, flags) == Keep(ps, Sources(Last(ps, flags))) && Sources(Last(ps, flags)) <= Sources(ps)
    decreases |ps|
  {
    if Chosen(ps, flags) == [] {
      KeepAll(ps, Sources(ps));
    } else {
      var rest := Others(ps, flags);
      OthersFewer(ps, flags);
      LastIsKept(rest, flags - Targets(Chosen(ps, flags)));
      KeepMembers(ps, Sources(ps) * flags);
      assert Sources(rest) <= Sources(ps) * flags;
      KeepKeep(ps, Sources(ps) * flags, Sources(Last(ps, flags)));
    }
  }

  lemma {:induction false} SomebodyWaits(ps: seq<Pair>, p: Pair)
    requires p in ps && OnCycle(ps, p)
    ensures p.from in Blocked(ps)
  {
    var k: nat :| Leads(ps, p.to, p.from, k);
    if k > 0 { var q :| q in ps && q.to == p.from && Leads(ps, p.to, q.from, k - 1); }
  }

  lemma {:induction false} SealedCyclesAreLast(ps: seq<Pair>, p: Pair)
    requires p in ps && OnCycle(ps, p) && forall q :: q in ps && Upstream(ps, q, p) ==> OnCycle(ps, q)
    ensures p in Last(ps, Blocked(ps))
  {
    var s := set q | q in ps && (q == p || Upstream(ps, q, p));
    forall q | q in s ensures q.from in Blocked(ps) { SomebodyWaits(ps, q); }
    forall q, r | q in s && r in ps && r.to == q.from ensures r in s {
      if q == p {
        assert Leads(ps, r.to, p.from, 0);
      } else {
        var k: nat :| Leads(ps, q.to, p.from, k);
        LeadsFurther(ps, r.to, q, p.from, k);
      }
    }
    SealedStays(ps, Blocked(ps), s);
  }

  lemma {:induction false} LeadsFurther(ps: seq<Pair>, a: Name, q: Pair, b: Name, k: nat)
    requires q in ps && a == q.from && Leads(ps, q.to, b, k)
    ensures Leads(ps, a, b, k + 1)
    decreases k
  {
    if k == 0 {
      assert Leads(ps, a, q.from, 0);
    } else {
      var r :| r in ps && r.to == b && Leads(ps, q.to, r.from, k - 1);
      LeadsFurther(ps, a, q, r.from, k - 1);
    }
  }

  /** The final block holds, in input order, exactly the renames on cycles that nothing leads to from outside a
      cycle; whether targets collide or not. */
  lemma {:induction false} LastIsTheSealedCycles(ps: seq<Pair>)
    requires DistinctSources(ps)
    ensures var c := Last(ps, Blocked(ps));
      && c == Keep(ps, Sources(c))
      && forall p :: p in ps ==>
           (p in c <==> OnCycle(ps, p) && forall q :: q in ps && Upstream(ps, q, p) ==> OnCycle(ps, q))
  {
    LastIsKept(ps, Blocked(ps));
    var c := Last(ps, Blocked(ps));
    LastIsSealed(ps, ps, Blocked(ps));
    forall p | p in c ensures OnCycle(ps, p) { LastIsOnCycles(ps, p); }
    forall p | p in ps
      ensures p in c <==> OnCycle(ps, p) && forall q :: q in ps && Upstream(ps, q, p) ==> OnCycle(ps, q)
    {
      if p in c {
        forall q | q in ps && Upstream(ps, q, p) ensures OnCycle(ps, q) {
          var k: nat :| Leads(ps, q.to, p.from, k);
          UpstreamIsSealed(ps, c, q, p, k);
        }
      } else if OnCycle(ps, p) && forall q :: q in ps && Upstream(ps, q, p) ==> OnCycle(ps, q) {
        SealedCyclesAreLast(ps, p);
      }
    }
  }

  /** For distinct targets nothing leads to a cycle from outside: the block holds just the cycles, nothing
      before it takes a name that is still held, there or in it. */
  lemma {:induction false} OrderForDistinctTargets(ps: seq<Pair>)
    requires DistinctSources(ps) && DistinctTargets(ps)
    ensures var l, c := Lead(ps, Blocked(ps)), Last(ps, Blocked(ps));
      && (forall p :: p in ps ==> (p in c <==> OnCycle(ps, p)))
      && (forall i, j :: 0 <= i <= j < |l| ==> l[i].to != l[j].from)
      && (forall p, q :: p in l && q in c ==> p.to != q.from && q.to != p.from)
  {
    LeadIsPeeled(ps);
    CoreIsTheCycles(ps);
    PeeledOrder(ps);
    forall p, q | p in Peeled(ps) && q in Core(ps) ensures p.to != q.from { PeeledAvoidsCore(ps, p, q); }
  }

  /** A rename onto a cycle opens it: the cycle is then not in the block, but planned like the others. */
  lemma {:induction false} EntranceOpensTheCycle(a: Name, b: Name, x: Name)
    requires a != b && a != x && b != x
    ensures var ps := [Pair(a, b), Pair(b, a), Pair(x, b)];
      OnCycle(ps, ps[0]) && OnCycle(ps, ps[1]) && Last(ps, Blocked(ps)) == []
  {
    var ps := [Pair(a, b), Pair(b, a), Pair(x, b)];
    assert ps[0] in ps && ps[1] in ps && ps[2] in ps;
    assert Leads(ps, b, b, 0) && Leads(ps, b, a, 1);
    assert Leads(ps, a, a, 0) && Leads(ps, a, b, 1);
    LastIsSealed(ps, ps, Blocked(ps));
    var c := Last(ps, Blocked(ps));
    assert x !in Targets(ps);
    if c != [] {
      assert c[0] in c;
      EntranceIsInside(ps, c, c[0]);
    }
  }

  lemma {:induction false} EntranceIsInside(ps: seq<Pair>, c: seq<Pair>, p: Pair)
    requires |ps| == 3 && ps[0].to == ps[1].from == ps[2].to && ps[1].to == ps[0].from
    requires Sealed(ps, c) && p in ps && p in c
    ensures ps[2] in c
  {
    assert ps[0] in ps && ps[1] in ps && ps[2] in ps;
    assert p == ps[0] || p == ps[1] || p == ps[2];
    assert p == ps[0] ==> ps[1] in c;
    assert ps[1] in c ==> ps[2] in c;
  }

  ghost predicate TodosOf(ps: seq<Pair>, todos: map<Name, Name>) {
    && todos.Keys <= Sources(ps)
    && forall p :: p in ps && p.from in todos ==> todos[p.from] == p.to
  }

  /** The sources not flagged as the target of a pending rename. */
  function Unflagged(incomes: map<Name, bool>): set<Name> { set n | n in incomes && !incomes[n] }

  lemma {:induction false} PrepareOne(ps: seq<Pair>, i: nat, todos: map<Name, Name>)
    requires i < |ps| && DistinctSources(ps) && todos.Keys == Sources(ps[..i]) && TodosOf(ps[..i], todos)
    ensures Sources(ps[..i + 1]) == Sources(ps[..i]) + {ps[i].from}
    ensures Targets(ps[..i + 1]) == Targets(ps[..i]) + {ps[i].to}
    ensures TodosOf(ps[..i + 1], todos[ps[i].from := ps[i].to])
  {
    assert ps[..i + 1] == ps[..i] + [ps[i]];
    assert ps[i].from !in Sources(ps[..i]);
  }

  method Prepare(ps: seq<Pair>) returns (incomes: map<Name, bool>, todos: map<Name, Name>)
    requires DistinctSources(ps)
    ensures incomes.Keys == todos.Keys == Sources(ps) && TodosOf(ps, todos)
    ensures forall n :: n in incomes ==> (incomes[n] <==> n in Targets(ps))
  {
    incomes := map n | n in Sources(ps) :: false;
    todos := map[];
    for i := 0 to |ps|
      invariant incomes.Keys == Sources(ps) && todos.Keys == Sources(ps[..i]) && TodosOf(ps[..i], todos)
      invariant forall n :: n in incomes ==> (incomes[n] <==> n in Targets(ps[..i]))
    {
      PrepareOne(ps, i, todos);
      if ps[i].to in incomes { incomes := incomes[ps[i].to := true]; }
      todos := todos[ps[i].from := ps[i].to];
    }
    assert ps[..|ps|] == ps;
  }

  /** The unflagged sources by descending position: positions are distinct, so sorting by them has
      this one result. */
  method Outcomes(ps: seq<Pair>, incomes: map<Name, bool>) returns (outcomes: seq<Name>)
    requires incomes.Keys <= Sources(ps)
    ensures var free := Rev(Keep(ps, Unflagged(incomes)));
      |outcomes| == |free| && forall i :: 0 <= i < |free| ==> outcomes[i] == free[i].from
  {
    outcomes := [];
    ghost var free: seq<Pair> := [];
    for i := |ps| downto 0
      invariant free == Rev(Keep(ps[i..], Unflagged(incomes)))
      invariant |outcomes| == |free| && forall j :: 0 <= j < |free| ==> outcomes[j] == free[j].from
    {
      assert ps[i..][1..] == ps[i + 1..];
      if ps[i].from in incomes && !incomes[ps[i].from] {
        RevAppend([ps[i]], Keep(ps[i + 1..], Unflagged(incomes)));
        outcomes := outcomes + [ps[i].from];
        free := free + [ps[i]];
      }
    }
  }

  /** After the first i free renames have been taken out. */
  ghost predicate PeeledSoFar(free: seq<Pair>, i: nat, incomes0: map<Name, bool>, todos0: map<Name, Name>,
                              incomes: map<Name, bool>, todos: map<Name, Name>)
    requires i <= |free|
  {
    && todos == todos0 - Sources(free[..i]) && incomes.Keys == todos.Keys
    && forall n :: n in incomes ==> n in incomes0 && (incomes[n] <==> incomes0[n] && n !in Targets(free[..i]))
  }

  lemma {:induction false} PeelOne(free: seq<Pair>, i: nat, incomes0: map<Name, bool>, todos0: map<Name, Name>,
                incomes: map<Name, bool>, todos: map<Name, Name>)
    requires i < |free| && DistinctSources(free) && free[i].from in todos0
    requires PeeledSoFar(free, i, incomes0, todos0, incomes, todos)
    ensures free[i].from in todos && free[..i + 1] == free[..i] + [free[i]]
    ensures var rest := incomes - {free[i].from};
      PeeledSoFar(free, i + 1, incomes0, todos0,
                  if free[i].to in rest then rest[free[i].to := false] else rest, todos - {free[i].from})
  {
    var p := free[i];
    assert free[..i + 1] == free[..i] + [p];
    assert p.from !in Sources(free[..i]);
    assert Sources(free[..i + 1]) == Sources(free[..i]) + {p.from};
    assert Targets(free[..i + 1]) == Targets(free[..i]) + {p.to};
    assert todos0 - Sources(free[..i + 1]) == todos - {p.from};
  }

  /** The free renames are pending as they are. */
  ghost predicate ArePending(free: seq<Pair>, todos: map<Name, Name>) {
    forall i :: 0 <= i < |free| ==> free[i].from in todos && todos[free[i].from] == free[i].to
  }

  lemma {:induction false} KeptArePending(ps: seq<Pair>, free: seq<Pair>, todos: map<Name, Name>)
    requires TodosOf(ps, todos) && forall p :: p in free ==> p in ps && p.from in todos
    ensures ArePending(free, todos)
  {
    forall i | 0 <= i < |free| ensures free[i].from in todos && todos[free[i].from] == free[i].to {
      assert free[i] in free;
    }
  }

  /** One round: moves the outcomes out of the maps and clears the flags they were holding up. */
  method Peel(outcomes: seq<Name>, ghost free: seq<Pair>,
              incomes0: map<Name, bool>, todos0: map<Name, Name>, sorted0: seq<Pair>)
    returns (incomes: map<Name, bool>, todos: map<Name, Name>, sorted: seq<Pair>)
    requires DistinctSources(free) && ArePending(free, todos0) && incomes0.Keys == todos0.Keys
    requires |outcomes| == |free| && forall i :: 0 <= i < |free| ==> outcomes[i] == free[i].from
    ensures sorted == sorted0 + free
    ensures todos == todos0 - Sources(free) && incomes.Keys == todos.Keys
    ensures forall n :: n in incomes ==> (incomes[n] <==> incomes0[n] && n !in Targets(free))
  {
    incomes, todos, sorted := incomes0, todos0, sorted0;
    for i := 0 to |outcomes|
      invariant sorted == sorted0 + free[..i] && PeeledSoFar(free, i, incomes0, todos0, incomes, todos)
    {
      var source := outcomes[i];
      PeelOne(free, i, incomes0, todos0, incomes, todos);
      var target := todos[source];  // the branch the source calls unreachable is never taken
      todos := todos - {source};
      incomes := incomes - {source};
      if target in incomes { incomes := incomes[target := false]; }
      sorted := sorted + [Pair(source, target)];
    }
    assert free[..|free|] == free;
  }

  /** The pending renames by ascending position. */
  method Remain(ps: seq<Pair>, todos: map<Name, Name>) returns (remain: seq<Pair>)
    requires TodosOf(ps, todos)
    ensures remain == Keep(ps, todos.Keys)
  {
    remain := [];
    for i := |ps| downto 0
      invariant remain == Keep(ps[i..], todos.Keys)
    {
      assert ps[i..][1..] == ps[i + 1..] && ps[i] in ps;
      if ps[i].from in todos { remain := [Pair(ps[i].from, todos[ps[i].from])] + remain; }
    }
  }

  function Flagged(incomes: map<Name, bool>): set<Name> { incomes.Keys - Unflagged(incomes) }

  lemma {:induction false} KeepSources(ps: seq<Pair>, k: set<Name>)
    requires k <= Sources(ps)
    ensures Sources(Keep(ps, k)) == k
  {
    KeepMembers(ps, k);
    forall n | n in k ensures n in Sources(Keep(ps, k)) {
      var p :| p in ps && p.from == n;
      assert p in Keep(ps, k);
    }
  }

  /** The flags single out the chosen renames. */
  lemma {:induction false} FlagsFindChosen(ps: seq<Pair>, incomes: map<Name, bool>)
    requires incomes.Keys <= Sources(ps)
    ensures var rem := Keep(ps, incomes.Keys);
      && Chosen(rem, Flagged(incomes)) == Keep(ps, Unflagged(incomes))
      && Others(rem, Flagged(incomes)) == Keep(ps, Flagged(incomes))
  {
    KeepSources(ps, incomes.Keys);
    assert incomes.Keys - Flagged(incomes) == Unflagged(incomes);
    assert incomes.Keys * Flagged(incomes) == Flagged(incomes);
    KeepKeep(ps, incomes.Keys, Unflagged(incomes));
    KeepKeep(ps, incomes.Keys, Flagged(incomes));
  }

  /** With distinct targets a flag has one cause, so clearing it when that cause leaves keeps the
      flags correct. */
  lemma {:induction false} FlagsStayRight(ps: seq<Pair>, k: set<Name>, f: set<Name>, n: Name)
    requires DistinctTargets(ps) && f <= k
    ensures n in Targets(Keep(ps, k - f)) <==> n in Targets(Keep(ps, k)) && n !in Targets(Keep(ps, f))
  {
    KeepMembers(ps, k);
    KeepMembers(ps, f);
    KeepMembers(ps, k - f);
    if n in Targets(Keep(ps, k)) && n !in Targets(Keep(ps, f)) {
      var p :| p in Keep(ps, k) && p.to == n;
      assert p in Keep(ps, k - f);
    }
    if n in Targets(Keep(ps, k - f)) {
      var p :| p in Keep(ps, k - f) && p.to == n;
      assert p in Keep(ps, k);
      forall q | q in Keep(ps, f) ensures q.to != n {
        assert p in ps && q in ps && p != q;
      }
    }
  }

  /** What holds between rounds: those done so far are the last of the order. */
  ghost predicate Underway(ps: seq<Pair>, incomes: map<Name, bool>, sorted: seq<Pair>) {
    var rem := Keep(ps, incomes.Keys);
    && incomes.Keys <= Sources(ps)
    && Lead(ps, Blocked(ps)) == Lead(rem, Flagged(incomes)) + Rev(sorted)
    && Last(ps, Blocked(ps)) == Last(rem, Flagged(incomes))
  }

  lemma {:induction false} LeadUnfolds(rem: seq<Pair>, flags: set<Name>)
    requires Chosen(rem, flags) != []
    ensures var left := flags - Targets(Chosen(rem, flags));
      && Lead(rem, flags) == Lead(Others(rem, flags), left) + Chosen(rem, flags)
      && Last(rem, flags) == Last(Others(rem, flags), left)
  {
    OthersFewer(rem, flags);
  }

  lemma {:induction false} Reassociate(a: seq<Pair>, free: seq<Pair>, sorted: seq<Pair>)
    ensures a + free + Rev(sorted) == a + Rev(sorted + Rev(free))
  {
    RevAppend(sorted, Rev(free));
    RevRev(free);
  }

  lemma {:induction false} RoundStaysUnderway(ps: seq<Pair>, incomes: map<Name, bool>, sorted: seq<Pair>,
      incomes': map<Name, bool>)
    requires Underway(ps, incomes, sorted) && Keep(ps, Unflagged(incomes)) != []
    requires incomes'.Keys == incomes.Keys - Unflagged(incomes)
    requires forall n :: n in incomes' ==>
      (incomes'[n] <==> incomes[n] && n !in Targets(Keep(ps, Unflagged(incomes))))
    ensures Underway(ps, incomes', sorted + Rev(Keep(ps, Unflagged(incomes))))
  {
    var rem, free := Keep(ps, incomes.Keys), Keep(ps, Unflagged(incomes));
    FlagsFindChosen(ps, incomes);
    LeadUnfolds(rem, Flagged(incomes));
    assert Flagged(incomes') == Flagged(incomes) - Targets(free);
    Reassociate(Lead(Keep(ps, incomes'.Keys), Flagged(incomes')), free, sorted);
  }

  lemma {:induction false} Finished(ps: seq<Pair>, incomes: map<Name, bool>, sorted: seq<Pair>)
    requires Underway(ps, incomes, sorted) && Keep(ps, Unflagged(incomes)) == []
    ensures Rev(sorted) + Keep(ps, incomes.Keys) == Order(ps)
  {
    FlagsFindChosen(ps, incomes);
    assert [] + Rev(sorted) == Rev(sorted);
  }

  lemma {:induction false} RevSameNames(s: seq<Pair>)
    ensures Sources(Rev(s)) == Sources(s) && Targets(Rev(s)) == Targets(s)
    ensures forall p :: p in Rev(s) <==> p in s
    ensures DistinctSources(s) ==> DistinctSources(Rev(s))
  {
    forall p | p in s ensures p in Rev(s) {
      var i :| 0 <= i < |s| && s[i] == p;
      assert Rev(s)[|s| - 1 - i] == p;
    }
  }

  lemma {:induction false} StartsUnderway(ps: seq<Pair>, incomes: map<Name, bool>)
    requires incomes.Keys == Sources(ps) && forall n :: n in incomes ==> (incomes[n] <==> n in Targets(ps))
    ensures Underway(ps, incomes, [])
  {
    KeepAll(ps, incomes.Keys);
    assert Flagged(incomes) == Blocked(ps);
    assert Lead(ps, Blocked(ps)) + Rev([]) == Lead(ps, Blocked(ps));
  }

  lemma {:induction false} FinishedEmpty(ps: seq<Pair>, incomes: map<Name, bool>, sorted: seq<Pair>)
    requires Underway(ps, incomes, sorted) && incomes.Keys == {}
    ensures Rev(sorted) == Order(ps)
  {
    NothingKept(ps);
    assert Unflagged(incomes) == {};
    Finished(ps, incomes, sorted);
    assert Rev(sorted) + [] == Rev(sorted);
  }

  /** One turn of the loop when there are outcomes. */
  method Turn(ps: seq<Pair>, outcomes: seq<Name>, incomes0: map<Name, bool>, todos0: map<Name, Name>,
              sorted0: seq<Pair>)
    returns (incomes: map<Name, bool>, todos: map<Name, Name>, sorted: seq<Pair>)
    requires DistinctSources(ps) && TodosOf(ps, todos0) && incomes0.Keys == todos0.Keys
    requires Underway(ps, incomes0, sorted0) && outcomes != []
    requires var free := Rev(Keep(ps, Unflagged(incomes0)));
      |outcomes| == |free| && forall i :: 0 <= i < |free| ==> outcomes[i] == free[i].from
    ensures TodosOf(ps, todos) && incomes.Keys == todos.Keys && todos.Keys < todos0.Keys
    ensures Underway(ps, incomes, sorted)
  {
    ghost var f := Unflagged(incomes0);
    ghost var kept := Keep(ps, f);
    KeepSources(ps, f);
    KeepMembers(ps, f);
    KeepDistinctSources(ps, f);
    RevSameNames(kept);
    assert kept[0] in kept;
    KeptArePending(ps, Rev(kept), todos0);
    incomes, todos, sorted := Peel(outcomes, Rev(kept), incomes0, todos0, sorted0);
    RoundStaysUnderway(ps, incomes0, sorted0, incomes);
  }

  /** The planner: for distinct sources it computes the order described above, a rearrangement; for distinct
      targets as well that is the plan. */
  method PrioritizedPaths(ps: seq<Pair>) returns (sorted: seq<Pair>)
    requires DistinctSources(ps)
    ensures sorted == Order(ps) && multiset(sorted) == multiset(ps)
    ensures DistinctTargets(ps) ==> sorted == Plan(ps)
  {
    LeadAndLastAreAll(ps, Blocked(ps));
    if DistinctTargets(ps) { LeadIsPeeled(ps); }
    var incomes, todos := Prepare(ps);
    sorted := [];
    StartsUnderway(ps, incomes);
    while todos.Keys != {}
      invariant TodosOf(ps, todos) && incomes.Keys == todos.Keys && Underway(ps, incomes, sorted)
      decreases todos.Keys
    {
      var outcomes := Outcomes(ps, incomes);
      if outcomes == [] {
        var remain := Remain(ps, todos);
        Finished(ps, incomes, sorted);
        return Rev(sorted) + remain;
      }
      incomes, todos, sorted := Turn(ps, outcomes, incomes, todos, sorted);
    }
    FinishedEmpty(ps, incomes, sorted);
    return Rev(sorted);
  }

  lemma {:induction false} NothingKept(ps: seq<Pair>)
    ensures Keep(ps, {}) == []
  {
    if ps != [] { NothingKept(ps[1..]); }
  }
}
